// The vocabulary of the operations in Authenticator.dfy: their faults, what a
// completed or refused request leaves of the record, and why each write that
// they make is allowed where they make it.

module AuthOutcomes {
  import opened Basics
  import opened Credentials
  import opened AuthHistory
  import opened AuthInvariant
  import opened AuthTheorems
  import opened LogoutTheorems
  import opened Scopes
  import Json

  datatype Fault =
    | Api(retryable: bool)
    | StoreUnavailable
    | StoreOperationPending
    | Halted  // the process stopped here
    | IdentityChanged
    | AuthRequired
    | AuthExpired
    | RecoveryPending
    | RecoveryNotRequired
    | ReconciliationRequired
    | LogoutIsPending
    | LogoutFailed
    | InvalidResponse
    | LoginAlreadyApproved
    | LoginRequired
    | LoginFlowMismatch
    | LoginAlreadyPending
    | LoginCallbackReplay
    | AlreadyCompleted
    | NotEnrolled
    | InvalidRequest
    | CallbackUnavailable
    | NetworkAmbiguous
    | IdempotencyKeyReused
    | BindingRequired
    | ReferenceMismatch
    | ScopeVerificationRequired

  /// The faults that a check of the bound owner can report.
  predicate OwnerCheckFault(f: Fault) {
    f.IdentityChanged? || f.LogoutIsPending? || f.ReconciliationRequired? || f.NotEnrolled?
  }

  /// All that can come of sending a journaled request, besides its completion.
  predicate SendFault(f: Fault) {
    || StoreFault(f) || f.Api? || f.AuthRequired? || f.AuthExpired? || f.IdentityChanged? || f.InvalidResponse?
    || f.LoginAlreadyApproved?
  }

  predicate StoreFault(f: Fault) {
    f.StoreUnavailable? || f.StoreOperationPending? || f.Halted?
  }

  /// `h` continues `p`; a foreign write, if there was one, came last.
  predicate Ran(p: History, h: History) {
    Continuous(p, h) || (h.Then? && h.event.Overwritten? && Continuous(p, h.past))
  }

  lemma {:induction false} ContinuousTransitive(a: History, b: History, c: History)
    requires Continuous(a, b) && Continuous(b, c)
    ensures Continuous(a, c)
  {
    if b != c {
      ContinuousTransitive(a, b, c.past);
    }
  }

  predicate RotationTarget(target: Target) {
    target.DeviceRefresh? || target.ChildRefresh?
  }

  /// An event that only rotates a token of an existing owner.
  predicate RotationEvent(e: Event) {
    match e
    case Saved(step, _) => step.RecoveryMarked? || step.Adopted? || step.Rejected?
                           || (step.Began? && RotationTarget(step.request.target))
    case Transmitted(p, _, _, _) => RotationTarget(p.target)
    case Overwritten(_) => true
    case _ => false
  }

  predicate RotationOnly(p: History, h: History) {
    p == h || (h.Then? && RotationEvent(h.event) && RotationOnly(p, h.past))
  }

  lemma {:induction false} RotationOnlyTransitive(a: History, b: History, c: History)
    requires RotationOnly(a, b) && RotationOnly(b, c)
    ensures RotationOnly(a, c)
  {
    if b != c {
      RotationOnlyTransitive(a, b, c.past);
    }
  }

  /// How many requests were journaled anew.
  function Begun(h: History): nat {
    if h.Boot? then 0 else Begun(h.past) + if JournalsAnew(h.event) then 1 else 0
  }

  predicate JournalsAnew(e: Event) {
    e.Saved? && e.step.Began?
  }

  /// How many recoveries were marked.
  function Repeats(h: History): nat {
    if h.Boot? then 0 else Repeats(h.past) + if h.event.Saved? && h.event.step.RecoveryMarked? then 1 else 0
  }

  /// How many grants were asked for.
  function Grants(h: History): nat {
    if h.Boot? then 0 else Grants(h.past) + if h.event.Requested? && h.event.call.GrantCall? then 1 else 0
  }

  /// At most so many requests were journaled anew and recovered, and no grant was asked for.
  predicate Spends(p: History, h: History, begun: nat, repeats: nat) {
    Begun(h) <= Begun(p) + begun && Repeats(h) <= Repeats(p) + repeats && Grants(h) == Grants(p)
  }

  // ---- Which rotations were due --------------------------------------------

  /// The token that a rotation replaces.
  function TokenOf(cell: Option<Record>, target: Target): Option<Token> {
    if cell.None? then None
    else
      match target
      case DeviceRefresh => cell.value.device
      case ChildRefresh(org) => if org in cell.value.children then Some(cell.value.children[org]) else None
      case _ => None
  }

  /// The stored token was found expired at one of these readings of the clock.
  predicate Due(cell: Option<Record>, target: Target, clock: seq<Instant>) {
    TokenOf(cell, target).Some? && exists time <- clock :: !TokenOf(cell, target).value.UsableAt(time)
  }

  /// Every request journaled from `p` to `h`, except at most `free`, rotates a
  /// token that was found expired in the very record it was written over.
  predicate OnlyDue(p: History, h: History, clock: seq<Instant>, free: nat)
    decreases h
  {
    p == h ||
    (h.Then? &&
     if JournalsAnew(h.event) && !Due(Cell(h.past), h.event.step.request.target, clock) then
       free > 0 && OnlyDue(p, h.past, clock, free - 1)
     else
       OnlyDue(p, h.past, clock, free))
  }

  lemma {:induction false} OnlyDueAdd(a: History, b: History, c: History, clock: seq<Instant>, n: nat, m: nat)
    requires OnlyDue(a, b, clock, n) && OnlyDue(b, c, clock, m)
    ensures OnlyDue(a, c, clock, n + m)
    decreases c
  {
    if b != c {
      if JournalsAnew(c.event) && !Due(Cell(c.past), c.event.step.request.target, clock) {
        OnlyDueAdd(a, b, c.past, clock, n, m - 1);
      } else {
        OnlyDueAdd(a, b, c.past, clock, n, m);
      }
    } else {
      MoreFree(a, b, clock, n, n + m);
    }
    hide Due;
  }

  lemma {:induction false} MoreFree(p: History, h: History, clock: seq<Instant>, n: nat, m: nat)
    requires OnlyDue(p, h, clock, n) && n <= m
    ensures OnlyDue(p, h, clock, m)
    decreases h
  {
    if p != h {
      if JournalsAnew(h.event) && !Due(Cell(h.past), h.event.step.request.target, clock) {
        MoreFree(p, h.past, clock, n - 1, m - 1);
      } else {
        MoreFree(p, h.past, clock, n, m);
      }
    }
    hide Due;
  }

  lemma {:induction false} BegunGrows(p: History, h: History)
    requires Prefix(p, h)
    ensures Begun(p) <= Begun(h)
  {
    if p != h {
      BegunGrows(p, h.past);
    }
  }

  lemma {:induction false} NothingBegun(p: History, h: History, clock: seq<Instant>)
    requires Prefix(p, h) && Begun(h) <= Begun(p)
    ensures OnlyDue(p, h, clock, 0)
    decreases h
  {
    if p != h {
      BegunGrows(p, h.past);
      NothingBegun(p, h.past, clock);
    }
    hide Due;
  }

  /// At most one request was journaled, for this target and over the first record.
  predicate OnceAt(p: History, h: History, target: Target) {
    p == h ||
    (&& h.Then? && OnceAt(p, h.past, target)
     && (JournalsAnew(h.event) ==> h.past == p && h.event.step.request.target == target))
  }

  lemma {:induction false} JournaledOnce(p: History, b: History, h: History, target: Target)
    requires b == p || (b.Then? && b.past == p && JournalsAnew(b.event) && b.event.step.request.target == target)
    requires Prefix(b, h) && Begun(h) <= Begun(b)
    ensures OnceAt(p, h, target)
  {
    if h != b {
      BegunGrows(b, h.past);
      JournaledOnce(p, b, h.past, target);
    } else {
      assert OnceAt(p, p, target);
    }
  }

  lemma {:induction false} OnceAtDue(p: History, h: History, target: Target, clock: seq<Instant>)
    requires OnceAt(p, h, target)
    ensures OnlyDue(p, h, clock, if Due(Cell(p), target, clock) then 0 else 1)
    decreases h
  {
    if p != h {
      if JournalsAnew(h.event) {
        assert OnlyDue(p, p, clock, 0);
      } else {
        OnceAtDue(p, h.past, target, clock);
      }
    }
    hide Due;
  }

  /// A token that was found expired at one reading was found expired at one of more.
  lemma {:induction false} DueSooner(p: History, h: History, fewer: seq<Instant>, clock: seq<Instant>, free: nat)
    requires OnlyDue(p, h, fewer, free) && forall time <- fewer :: time in clock
    ensures OnlyDue(p, h, clock, free)
    decreases h
  {
    if p != h {
      var e := h.event;
      if JournalsAnew(e) && !Due(Cell(h.past), e.step.request.target, fewer) {
        DueSooner(p, h.past, fewer, clock, free - 1);
        MoreFree(p, h.past, clock, free - 1, free);
      } else {
        DueSooner(p, h.past, fewer, clock, free);
      }
    }
  }

  /// Every enrollment that is journaled is for this organization and carries the caller's key.
  predicate EnrollsUnder(p: History, h: History, org: string, key: string) {
    p == h ||
    (&& h.Then? && EnrollsUnder(p, h.past, org, key)
     && (JournalsAnew(h.event) && h.event.step.request.target.Enroll? ==>
           h.event.step.request.target.org == org && h.event.step.request.body == EnrollBody(key)))
  }

  lemma {:induction false} EnrollsUnderTransitive(a: History, b: History, c: History, org: string, key: string)
    requires EnrollsUnder(a, b, org, key) && EnrollsUnder(b, c, org, key)
    ensures EnrollsUnder(a, c, org, key)
  {
    if b != c {
      EnrollsUnderTransitive(a, b, c.past, org, key);
    }
  }

  /// Rotations enroll nobody.
  lemma {:induction false} RotationsEnrollNobody(p: History, h: History, clock: seq<Instant>, org: string, key: string)
    requires OnlyDue(p, h, clock, 0)
    ensures EnrollsUnder(p, h, org, key)
    decreases h
  {
    if p != h {
      RotationsEnrollNobody(p, h.past, clock, org, key);
    }
  }

  lemma {:induction false} EnrolledOnce(p: History, h: History, target: Target, body: Body, org: string, key: string)
    requires OnceAt(p, h, target) && OnceWith(p, h, body) && target == Enroll(org) && body == EnrollBody(key)
    ensures EnrollsUnder(p, h, org, key)
  {
    if p != h {
      EnrolledOnce(p, h.past, target, body, org, key);
    }
  }

  /// Whatever was journaled carries this body.
  predicate OnceWith(p: History, h: History, body: Body) {
    p == h || (h.Then? && OnceWith(p, h.past, body) && (JournalsAnew(h.event) ==> h.event.step.request.body == body))
  }

  lemma {:induction false} JournaledWith(p: History, b: History, h: History, body: Body)
    requires b == p || (b.Then? && b.past == p && JournalsAnew(b.event) && b.event.step.request.body == body)
    requires Prefix(b, h) && Begun(h) <= Begun(b)
    ensures OnceWith(p, h, body)
  {
    if h != b {
      BegunGrows(b, h.past);
      JournaledWith(p, b, h.past, body);
    } else {
      assert OnceWith(p, p, body);
    }
  }

  /// From the record before it on, one request was journaled: this one.
  lemma JournaledOnly(p: History, b: History, h: History, target: Target, body: Body)
    requires b == p || (b.Then? && b.past == p && JournalsAnew(b.event) && b.event.step.request.target == target
                        && b.event.step.request.body == body)
    requires Ran(b, h) && Begun(h) <= Begun(b)
    ensures OnceAt(p, h, target) && OnceWith(p, h, body)
  {
    RanPrefix(b, h);
    JournaledOnce(p, b, h, target);
    JournaledWith(p, b, h, body);
    hide OnceAt, OnceWith, Ran;
  }

  /// One rotation, whatever its reason.
  lemma OneRotation(p: History, h: History, target: Target, clock: seq<Instant>)
    requires OnceAt(p, h, target)
    ensures OnlyDue(p, h, clock, 1)
  {
    OnceAtDue(p, h, target, clock);
    if Due(Cell(p), target, clock) {
      MoreFree(p, h, clock, 0, 1);
    }
    hide OnlyDue, OnceAt, Due;
  }

  lemma ExpiredIsDue(cell: Option<Record>, target: Target, clock: seq<Instant>, i: nat)
    requires TokenOf(cell, target).Some? && i < |clock| && !TokenOf(cell, target).value.UsableAt(clock[i])
    ensures Due(cell, target, clock)
  {
  }

  /// A rotation of a token that was found expired.
  lemma DueRotation(a: History, b: History, c: History, target: Target, clock: seq<Instant>, free: nat)
    requires OnlyDue(a, b, clock, free) && OnceAt(b, c, target) && Due(Cell(b), target, clock)
    ensures OnlyDue(a, c, clock, free)
  {
    OnceAtDue(b, c, target, clock);
    OnlyDueAdd(a, b, c, clock, free, 0);
  }

  /// A run that journals nothing.
  lemma DueNothing(a: History, b: History, c: History, clock: seq<Instant>, free: nat)
    requires OnlyDue(a, b, clock, free) && Ran(b, c) && Begun(c) <= Begun(b)
    ensures OnlyDue(a, c, clock, free)
  {
    RanPrefix(b, c);
    NothingBegun(b, c, clock);
    OnlyDueAdd(a, b, c, clock, free, 0);
  }

  lemma RanPrefix(p: History, h: History)
    requires Ran(p, h)
    ensures Prefix(p, h)
  {
    if Continuous(p, h) {
      ContinuousPrefix(p, h);
    } else {
      ContinuousPrefix(p, h.past);
    }
  }

  lemma {:induction false} RepeatsGrow(p: History, h: History)
    requires Prefix(p, h)
    ensures Repeats(p) <= Repeats(h)
  {
    if p != h {
      RepeatsGrow(p, h.past);
    }
  }

  /// A run that marks no recovery leaves their number as it was.
  lemma SameRepeats(p: History, h: History)
    requires Ran(p, h) && Repeats(h) <= Repeats(p)
    ensures Repeats(h) == Repeats(p)
  {
    RanPrefix(p, h);
    RepeatsGrow(p, h);
    hide Ran;
  }

  /// What holds of two runs one after the other.
  lemma Follow(a: History, b: History, c: History)
    requires Continuous(a, b) && Ran(b, c)
    ensures Ran(a, c)
    ensures Continuous(b, c) ==> Continuous(a, c)
    ensures RotationOnly(a, b) && RotationOnly(b, c) ==> RotationOnly(a, c)
  {
    if Continuous(b, c) {
      ContinuousTransitive(a, b, c);
    } else {
      ContinuousTransitive(a, b, c.past);
    }
    if RotationOnly(a, b) && RotationOnly(b, c) {
      RotationOnlyTransitive(a, b, c);
    }
  }

  /// What a completed request leaves of the record it started from.
  predicate Completed(r: Record, target: Target, s: Record) {
    && s.pending.None? && s.installationId == r.installationId && s.privateKey == r.privateKey
    && s.logoutPending == r.logoutPending && s.upgrades == r.upgrades
    && s.profiles == r.profiles && s.active == r.active
    && (match target
        case BrowserCancel =>
          && s.device == r.device && s.children == r.children && s.login.None?
          && (if r.logoutPending
              then s.revocation.Some? && s.revocation.value.kind.CancelledInBrowser?
                   && s.revocation.value.confirmedAt > 0 && s.revocation.value.identity == CredentialIdentity(r)
              else s.revocation == r.revocation)
        case Enroll(org) =>
          s.device == r.device && s.login == r.login && s.revocation == r.revocation
          && s.children.Keys == r.children.Keys + {org} && s.children - {org} == r.children - {org}
        case DeviceRefresh => Rotated(r, s) && s.children == r.children
        case ChildRefresh(org) => Rotated(r, s) && s.device == r.device && s.children - {org} == r.children - {org}
        case _ => s.device.Some? && s.login.None? && s.children == r.children && s.revocation == r.revocation)
  }

  predicate Rotated(r: Record, s: Record) {
    SameDevice(r, s) && SameChildren(r, s) && s.children.Keys == r.children.Keys && s.login == r.login
    && s.revocation == r.revocation
  }

  /// The server refused a cancellation: the request it had displaced is back.
  predicate RefusedCancel(r: Record, cell: Option<Record>) {
    r.pending.Some? && r.pending.value.target.BrowserCancel? && cell == Some(r.(pending := r.pending.value.superseded))
  }

  /// After a retryable failure: the request itself, or the bootstrap that the
  /// exchange has meanwhile been replaced by.
  predicate Retried(r: Record, s: Record) {
    && s.pending.Some? && s == r.(pending := s.pending)
    && (s == r || (r.pending.Some? && r.pending.value.target.BrowserExchange? && s.pending.value.target.Bootstrap?))
  }

  /// Every receipt that waited for this reference now carries the rejection.
  predicate RejectionsRecorded(reference: Reference, r: Record, s: Record) {
    forall k <- r.recoveries ::
      OpenFor(r.recoveries[k], reference) ==>
        k in s.recoveries && s.recoveries[k] == r.recoveries[k].(rejection := Some(RecoveryRejected))
  }

  /// Every receipt that waited for this reference now reports what `s` itself says.
  predicate ResultsRecorded(reference: Reference, r: Record, s: Record) {
    forall k <- r.recoveries ::
      OpenFor(r.recoveries[k], reference) ==>
        k in s.recoveries && s.recoveries[k] == r.recoveries[k].(result := Some(OutcomeOf(s, Some(reference))))
  }

  /// A definite rejection leaves everything but the receipts, and forgets an enrollment only.
  predicate LeftAsItWas(r: Record, s: Record)
    requires r.pending.Some?
  {
    && s == r.(pending := s.pending, recoveries := s.recoveries)
    && (if r.pending.value.target.Enroll? then s.pending.None? else s.pending.Some?)
    && (!r.pending.value.target.Enroll? && !r.pending.value.target.BrowserExchange? ==>
          s.pending.value == r.pending.value.(recoveryUsed := s.pending.value.recoveryUsed))
  }

  /// What sending the request of `first` comes to: it completes, with its receipts,
  /// by an adoption; or one of the listed faults is reported, a definite rejection
  /// with its receipts, a refused cancellation with the request it displaced.
  predicate Sent(r: Result<(), Fault>, first: Record, next: Record, h: History, cell: Option<Record>)
    requires first.pending.Some?
  {
    match r
    case Success(_) =>
      && cell == Some(next) && h.Then? && h.event.Saved? && h.event.step.Adopted?
      && Completed(first, first.pending.value.target, next)
      && StoresReply(first.pending.value.target, next, h.event.step.data)
      && ResultsRecorded(RecoveryReference(first).value, first, next)
    case Failure(fault) =>
      && SendFault(fault) && (fault.Api? ==> cell == Some(next))
      && (fault == Api(false) ==>
            LeftAsItWas(first, next) && RejectionsRecorded(RecoveryReference(first).value, first, next))
      && (fault.LoginAlreadyApproved? ==> RefusedCancel(first, cell))
  }

  /// A failure before there is an answer to use.
  lemma SentInVain(fault: Fault, first: Record, next: Record, h: History, cell: Option<Record>)
    requires first.pending.Some? && SendFault(fault) && !fault.Api? && !fault.LoginAlreadyApproved?
    ensures Sent(Failure(fault), first, next, h, cell)
  {
  }

  /// What holds of the bootstrap holds of the exchange it replaced.
  lemma ChainSent(r: Record, chained: Record, sent: Result<(), Fault>, next: Record, h: History, cell: Option<Record>)
    requires Retried(r, chained) && chained.pending.value.target.Bootstrap? && r.pending.Some?
    requires r.pending.value.target.BrowserExchange? && RecoveryReference(chained) == RecoveryReference(r)
    requires Sent(sent, chained, next, h, cell)
    ensures Sent(sent, r, next, h, cell)
    ensures Retried(chained, next) ==> Retried(r, next)
  {
    ChainCompletes(r, chained);
    hide RecoveryReference, Completed, ResultsRecorded, RejectionsRecorded;
  }

  /// What a repeated request comes to, it comes to for the first one.
  lemma RetrySent(r: Record, s: Record, sent: Result<(), Fault>, next: Record, h: History, cell: Option<Record>)
    requires Retried(r, s) && r.pending.Some? && r.pending.value.target != Bootstrap
    requires RecoveryReference(s) == RecoveryReference(r) && Sent(sent, s, next, h, cell)
    ensures Sent(sent, r, next, h, cell)
  {
    RetriedCompletes(r, s);
    hide RecoveryReference, Completed, ResultsRecorded, RejectionsRecorded;
  }

  lemma MarkedSent(r: Record, s: Record, sent: Result<(), Fault>, next: Record, h: History, cell: Option<Record>)
    requires r.pending.Some? && s == r.(pending := Some(r.pending.value.(recoveryUsed := true)))
    requires Sent(sent, s, next, h, cell)
    ensures Sent(sent, r, next, h, cell)
  {
    MarkedCompletes(r, s);
    hide RecoveryReference, Completed, ResultsRecorded, RejectionsRecorded;
  }

  lemma AdoptRecords(r: Record, data: Json.Value)
    requires Adopt(r, data).Some?
    ensures ResultsRecorded(RecoveryReference(r).value, r, Adopt(r, data).value)
  {
    AdoptedAny(r, r.pending.value, data);
    hide AdoptCredentials, PendingGeneration;
  }

  lemma RejectSettles(r: Record)
    requires r.pending.Some?
    ensures Reject(r).Some? && RejectionsRecorded(RecoveryReference(r).value, r, Reject(r).value)
    ensures LeftAsItWas(r, Reject(r).value)
  {
    hide PendingGeneration;
  }

  lemma RotatedBy(p: History, h: History)
    requires h == p || (h.Then? && h.past == p && h.event.Saved? && (h.event.step.Adopted? || h.event.step.Rejected?))
    ensures Continuous(p, h) && RotationOnly(p, h)
  {
    assert Continuous(p, p) && RotationOnly(p, p);
  }

  /// Whatever the bootstrap comes to, it comes to for the exchange it replaced.
  lemma ChainCompletes(r: Record, chained: Record)
    requires Retried(r, chained) && chained.pending.value.target.Bootstrap? && r.pending.Some?
    requires r.pending.value.target.BrowserExchange?
    ensures forall s :: Completed(chained, Bootstrap, s) ==> Completed(r, BrowserExchange, s)
    ensures forall s :: Retried(chained, s) ==> Retried(r, s)
    ensures forall ref, s :: ResultsRecorded(ref, chained, s) ==> ResultsRecorded(ref, r, s)
    ensures forall ref, s :: RejectionsRecorded(ref, chained, s) ==> RejectionsRecorded(ref, r, s)
  {
  }

  /// A request completes for the record it was begun from, less its old evidence.
  lemma BeganCompletes(r: Record, begun: Record)
    requires begun.pending.Some? && begun == r.(revocation := None, pending := begun.pending) && r.pending.None?
    ensures forall target, s :: Completed(begun, target, s) ==> Completed(r.(revocation := None), target, s)
    ensures begun.pending.value.target.BrowserExchange? && BrowserGeneration(r).Some? ==>
      RecoveryReference(begun) == RecoveryReference(r)
    ensures forall ref, s :: ResultsRecorded(ref, begun, s) ==> ResultsRecorded(ref, r, s)
    ensures forall ref, s :: RejectionsRecorded(ref, begun, s) ==> RejectionsRecorded(ref, r, s)
  {
  }

  /// What a request comes to, it comes to for the record that it was begun over.
  lemma BegunSent(r: Record, begun: Record, body: Body, sent: Result<(), Fault>, next: Record, h: History,
                  cell: Option<Record>)
    requires begun.pending.Some? && begun == r.(revocation := None, pending := begun.pending) && r.pending.None?
    requires Sent(sent, begun, next, h, cell) && FitsRecord(r, begun.pending.value.target, body)
    ensures var target := begun.pending.value.target;
      && (sent.Success? ==>
            (&& cell == Some(next) && h.Then? && h.event.Saved? && h.event.step.Adopted?
             && Completed(r.(revocation := None), target, next) && StoresReply(target, next, h.event.step.data)))
      && (target.BrowserExchange? && sent.Success? ==>
            RecoveryReference(r).Some? && ResultsRecorded(RecoveryReference(r).value, r, next))
      && (target.BrowserExchange? && sent == Failure(Api(false)) ==>
            (&& cell == Some(next) && RecoveryReference(r).Some?
             && RejectionsRecorded(RecoveryReference(r).value, r, next)))
      && (sent.Failure? ==> SendFault(sent.error))
  {
    BeganCompletes(r, begun);
    FitsGeneration(r, begun.pending.value.target, body);
    hide RecoveryReference, Completed, ResultsRecorded, RejectionsRecorded, StoresReply, LeftAsItWas, FitsRecord,
      BrowserGeneration;
  }

  lemma RetriedCompletes(r: Record, s: Record)
    requires Retried(r, s) && r.pending.Some? && r.pending.value.target != Bootstrap
    ensures forall t :: Completed(s, s.pending.value.target, t) ==> Completed(r, r.pending.value.target, t)
    ensures forall ref, t :: ResultsRecorded(ref, s, t) ==> ResultsRecorded(ref, r, t)
    ensures forall ref, t :: RejectionsRecorded(ref, s, t) ==> RejectionsRecorded(ref, r, t)
  {
  }

  lemma ConfirmKeepsReference(r: Record, s: Record)
    requires r.pending.Some? && s == r.(revocation := s.revocation)
    ensures RecoveryReference(s) == RecoveryReference(r)
    ensures forall t :: ResultsRecorded(RecoveryReference(r).value, s, t) ==>
      ResultsRecorded(RecoveryReference(r).value, r, t)
  {
  }

  lemma FitsGeneration(r: Record, target: Target, body: Body)
    requires FitsRecord(r, target, body)
    ensures target != Bootstrap
    ensures target.BrowserExchange? ==> BrowserGeneration(r).Some? && (r.pending.None? ==> RecoveryReference(r).Some?)
  {
  }

  lemma ChainedReference(r: Record, grant: string, nonce: nat, at: Instant)
    requires r.pending.Some? && r.pending.value.target.BrowserExchange?
    ensures var chained := r.(pending := Some(BootstrapRequest(r, r.pending.value, grant, nonce, at)));
      RecoveryReference(chained) == RecoveryReference(r)
  {
  }

  /// The bootstrap that redeems the grant of this answer, signed for it by this installation.
  predicate RedeemsGrant(r: Record, data: Json.Value, p: Pending) {
    && p.target.Bootstrap? && p.route.BootstrapRoute? && p.body.BootstrapBody? && !p.recoveryUsed
    && p.body.grant != "" && Json.At(data, Json.BootstrapGrant) == Json.Text(p.body.grant)
    && Proves(r, p.body.proof, ProveBootstrap, p.body.grant) && p.superseded.None?
  }

  /// A confirmed cancellation is always well formed.
  lemma CancelSettles(r: Record, data: Json.Value)
    requires r.pending.Some? && r.pending.value.target.BrowserCancel?
    requires Json.At(data, Json.Canceled) == Json.Bool(true)
    ensures Adopt(r, data).Some?
    ensures var s := Adopt(r, data).value;
      && s.device == r.device && s.children == r.children && s.login.None? && s.revocation == r.revocation
      && s.pending.None? && s.installationId == r.installationId && s.privateKey == r.privateKey
      && s.logoutPending == r.logoutPending && s.upgrades == r.upgrades
  {
    hide RecoveryReference, SettleResults;
  }

  lemma AdoptionCompletes(r: Record, data: Json.Value)
    requires Adopt(r, data).Some? && !(r.logoutPending && r.pending.value.target.BrowserCancel?)
    ensures Completed(r, r.pending.value.target, Adopt(r, data).value)
  {
    var p := r.pending.value;
    AdoptedAny(r, p, data);
    match p.target
    case DeviceRefresh => AdoptedRotation(r, p, data);
    case ChildRefresh(_) => AdoptedRotation(r, p, data);
    case Enroll(org) => AdoptedEnrollment(r, p, org, data);
    case BrowserCancel =>
    case Bootstrap => assert AdoptCredentials(r, p, data).value.children == r.children;
    hide AdoptBootstrap, AdoptDevice, AdoptChild, AdoptEnrollment, SettleResults, RecoveryReference,
      CredentialIdentity;
  }

  // ---- Owner-bound credentials ---------------------------------------------

  /// Only rotations, all of them of tokens found expired, and at most so many.
  predicate RotatesDue(p: History, h: History, clock: seq<Instant>, begun: nat, repeats: nat) {
    Ran(p, h) && RotationOnly(p, h) && OnlyDue(p, h, clock, 0) && Spends(p, h, begun, repeats)
  }

  lemma RotatesOn(a: History, b: History, c: History, clock: seq<Instant>, m: nat, n: nat, i: nat, j: nat)
    requires Continuous(a, b) && RotatesDue(a, b, clock, m, n) && RotatesDue(b, c, clock, i, j)
    ensures RotatesDue(a, c, clock, m + i, n + j)
    ensures Continuous(b, c) ==> Continuous(a, c)
  {
    Follow(a, b, c);
    OnlyDueAdd(a, b, c, clock, 0, 0);
    hide Ran, RotationOnly, OnlyDue, Begun, Repeats, Grants, Continuous;
  }

  lemma MoreRotations(p: History, h: History, clock: seq<Instant>, m: nat, n: nat, i: nat, j: nat)
    requires RotatesDue(p, h, clock, m, n) && m <= i && n <= j
    ensures RotatesDue(p, h, clock, i, j)
  {
    hide Ran, RotationOnly, OnlyDue, Begun, Repeats, Grants;
  }

  lemma RestRotatesDue(h: History, clock: seq<Instant>)
    ensures RotatesDue(h, h, clock, 0, 0)
  {
  }

  datatype Owner = Owner(org: string, account: string, identity: Identity)

  datatype Granted = Granted(bearer: Bearer, owner: Owner)

  /// `validate_bound_owner`: why this record no longer serves the owner, if it does not.
  function OwnerFault(r: Record, owner: Owner, recover: bool): Option<Fault> {
    if CredentialIdentity(r) != owner.identity || owner.org !in r.children
       || r.children[owner.org].subject != owner.account then
      Some(IdentityChanged)
    else if r.logoutPending then
      Some(LogoutIsPending)
    else if r.login.Some? then
      Some(ReconciliationRequired)
    else if r.pending.Some? && !(recover && RecoverableRotation(r, r.pending.value)) then
      Some(ReconciliationRequired)
    else
      None
  }

  predicate RecoverableRotation(r: Record, p: Pending) {
    && p.superseded.None?
    && (match p.target
        case DeviceRefresh => r.device.Some?
        case ChildRefresh(org) => org in r.children
        case _ => false)
  }

  /// `bound_owner`: the owner that a caller may act for, checked before anything is sent.
  function BoundOwner(r: Record, org: string, expected: Option<Identity>, account: Option<string>, recover: bool)
    : Result<Owner, Fault>
  {
    var identity := CredentialIdentity(r);
    if r.logoutPending then
      Failure(LogoutIsPending)
    else if expected.Some? && !(identity.installationId == expected.value.installationId
                                && (expected.value.deviceId.None? || identity.deviceId == expected.value.deviceId)) then
      Failure(IdentityChanged)
    else if org !in r.children then
      Failure(NotEnrolled)
    else if account.Some? && r.children[org].subject != account.value then
      Failure(IdentityChanged)
    else
      var owner := Owner(org, r.children[org].subject, identity);
      match OwnerFault(r, owner, recover)
      case Some(fault) => Failure(fault)
      case None => Success(owner)
  }

  /// `validate_pending_refresh_owner`: a recovered rotation kept the subject it rotated.
  predicate SameRotationOwner(target: Target, r: Record, s: Record) {
    match target
    case DeviceRefresh => s.device.Some? && (r.device.Some? ==> s.device.value.subject == r.device.value.subject)
    case ChildRefresh(org) =>
      org in s.children && (org in r.children ==> s.children[org].subject == r.children[org].subject)
    case _ => false
  }

  /// Every owner of `r` is still there under the same subject.
  predicate SameOwners(r: Record, s: Record) {
    SameDevice(r, s) && SameChildren(r, s) && s.children.Keys == r.children.Keys
  }

  lemma SameOwnersTransitive(a: Record, b: Record, c: Record)
    requires SameOwners(a, b) && SameOwners(b, c)
    ensures SameOwners(a, c)
  {
  }

  /// A token of the owner that `r` names is served from the store, usable when
  /// it was read last, and no other subject has changed.
  predicate Served(r: Record, owner: Owner, clock: seq<Instant>, cell: Option<Record>, granted: Granted) {
    && cell.Some? && SameOwners(r, cell.value) && OwnedBy(cell.value, owner)
    && granted.bearer.token == cell.value.children[owner.org].access
    && granted.bearer.subject == owner.account && granted.owner == owner
    && exists time <- clock :: cell.value.children[owner.org].UsableAt(time)
  }

  /// The record is the owner's own, and nothing in it is unfinished.
  predicate OwnedBy(r: Record, owner: Owner) {
    && owner.org in r.children && r.children[owner.org].subject == owner.account
    && CredentialIdentity(r) == owner.identity && owner.identity.installationId == r.installationId
    && (r.device.Some? ==> owner.identity.deviceId == Some(r.device.value.subject))
    && !r.logoutPending && r.login.None? && r.pending.None?
  }

  lemma FaultlessOwner(r: Record, owner: Owner)
    ensures OwnerFault(r, owner, false).None? <==> OwnedBy(r, owner)
  {
  }

  /// The record does not belong to whom the caller expects, or is not the caller's to use now.
  predicate Mismatched(r: Record, org: string, expected: Option<Identity>, account: Option<string>) {
    || (expected.Some? && expected.value.installationId != r.installationId)
    || (expected.Some? && expected.value.deviceId.Some? && expected.value.deviceId != CredentialIdentity(r).deviceId)
    || org !in r.children || (account.Some? && r.children[org].subject != account.value)
    || r.logoutPending || r.login.Some?
    || (r.pending.Some? && !r.pending.value.target.DeviceRefresh? && !r.pending.value.target.ChildRefresh?)
  }

  /// Whom a successful call serves: the stored owner, who is the expected one.
  predicate Expected(r: Record, org: string, expected: Option<Identity>, account: Option<string>, owner: Owner) {
    && org in r.children && owner == Owner(org, r.children[org].subject, CredentialIdentity(r))
    && owner.identity.installationId == r.installationId
    && (account.Some? ==> owner.account == account.value)
    && (expected.Some? ==> owner.identity.installationId == expected.value.installationId)
    && (expected.Some? && expected.value.deviceId.Some? ==> owner.identity.deviceId == expected.value.deviceId)
  }

  /// What the caller is told: whose record it is comes before what is unfinished in it.
  predicate MismatchFault(r: Record, org: string, expected: Option<Identity>, account: Option<string>, f: Fault) {
    && (r.logoutPending ==> f.LogoutIsPending?)
    && (!r.logoutPending && expected.Some?
        && (expected.value.installationId != r.installationId
            || (expected.value.deviceId.Some? && expected.value.deviceId != CredentialIdentity(r).deviceId)) ==>
          f.IdentityChanged?)
    && (f.NotEnrolled? ==> org !in r.children)
    && (f.ReconciliationRequired? ==>
          (&& org in r.children && (account.Some? ==> r.children[org].subject == account.value)
           && (r.login.Some? || r.pending.Some?)))
    && (f.LogoutIsPending? || f.IdentityChanged? || f.NotEnrolled? || f.ReconciliationRequired?)
  }

  lemma BoundOwnerIsExpected(r: Record, org: string, expected: Option<Identity>, account: Option<string>)
    ensures Mismatched(r, org, expected, account) ==> BoundOwner(r, org, expected, account, true).Failure?
    ensures BoundOwner(r, org, expected, account, true).Failure? ==>
      MismatchFault(r, org, expected, account, BoundOwner(r, org, expected, account, true).error)
    ensures BoundOwner(r, org, expected, account, true).Success? ==>
      Expected(r, org, expected, account, BoundOwner(r, org, expected, account, true).value)
    ensures Sound(r) && !Mismatched(r, org, expected, account) ==>
      BoundOwner(r, org, expected, account, true).Success?
  {
    hide SoundEvidence, Stamp;
  }

  lemma ServedTransitive(r: Record, s: Record, owner: Owner, clock: seq<Instant>, cell: Option<Record>,
                         granted: Granted)
    requires SameOwners(r, s) && Served(s, owner, clock, cell, granted)
    ensures Served(r, owner, clock, cell, granted)
  {
    SameOwnersTransitive(r, s, cell.value);
  }

  lemma BoundOwnerIsValid(r: Record, org: string, expected: Option<Identity>, account: Option<string>)
    requires BoundOwner(r, org, expected, account, true).Success?
    ensures var owner := BoundOwner(r, org, expected, account, true).value;
      owner.org == org && OwnerFault(r, owner, true).None?
  {
  }

  lemma NothingPending(r: Record, owner: Owner)
    requires r.pending.None?
    ensures OwnerFault(r, owner, false) == OwnerFault(r, owner, true)
  {
  }

  /// In a sound record an owner is never hidden behind old evidence, so a
  /// completed rotation cannot disturb it.
  lemma RotationKeepsOwner(r: Record, owner: Owner, s: Record)
    requires OwnerFault(r, owner, true).None? && r.revocation.None?
    requires SameOwners(r, s) && s.pending.None? && s.login.None? && s.revocation.None?
    requires s.installationId == r.installationId && s.logoutPending == r.logoutPending
    ensures OwnerFault(s, owner, false).None?
  {
  }

  lemma OwnerHasNoEvidence(r: Record, owner: Owner)
    requires Sound(r) && OwnerFault(r, owner, true).None?
    ensures r.revocation.None?
  {
    hide SoundPending;
  }

  /// A write that may be made now and that carries no random value of the future.
  predicate Allowed(h: History, step: Step, next: Record, entropy: nat) {
    Permitted(h, step, next) && RecordSupply(Some(next)) <= entropy
  }

  lemma StepSupply(r: Record, step: Step)
    requires Next(r, step).Some? && !Installs(step)
    ensures RecordSupply(Next(r, step)) <= RecordSupply(Some(r))
  {
    if step.Adopted? {
      AdoptedAny(r, r.pending.value, step.data);
    }
    hide AdoptCredentials, ValidRevocation, NothingToRevoke, IsNewRequest, IsCancelIntent, PendingGeneration,
      RecoveryReference, SettleResults, SettleRejections, CredentialIdentity;
  }

  lemma AllowStep(h: History, r: Record, step: Step, entropy: nat)
    requires Cell(h) == Some(r) && Supply(h) <= entropy && !Installs(step)
    requires Next(r, step).Some? && Supported(h, r, step)
    ensures Allowed(h, step, Next(r, step).value, entropy)
  {
    SupplyCoversCell(h);
    StepSupply(r, step);
    hide RecordSupply, Next, Supported, Supply;
  }

  lemma AdoptionStep(r: Record, data: Json.Value)
    ensures Next(r, Adopted(data)) == Adopt(r, data)
  {
    hide Adopt;
  }

  lemma AllowAdopted(h: History, r: Record, data: Json.Value, entropy: nat)
    requires Cell(h) == Some(r) && Supply(h) <= entropy && Supported(h, r, Adopted(data)) && Adopt(r, data).Some?
    ensures Allowed(h, Adopted(data), Adopt(r, data).value, entropy)
  {
    AdoptionStep(r, data);
    AllowStep(h, r, Adopted(data), entropy);
    hide Next, Allowed, Supply, Supported, Adopt;
  }

  /// A confirmed cancellation may be adopted once its evidence, if it owes any, is durable.
  lemma AdoptableCancel(h: History, r: Record, data: Json.Value)
    requires r.pending.Some? && r.pending.value.target.BrowserCancel?
    requires r.logoutPending ==> h.Then? && h.event.Saved? && h.event.step.CancelConfirmed?
    requires AnsweredWith(if r.logoutPending then h.past else h, r, data)
    ensures Supported(h, r, Adopted(data))
  {
    hide Supply;
  }

  lemma AllowBegun(h: History, r: Record, p: Pending, next: Record, entropy: nat)
    requires Cell(h) == Some(r) && r.pending.None? && IsNewRequest(r, p)
    requires Supply(h) <= Stamp(p) < entropy && next == r.(revocation := None, pending := Some(p))
    ensures Allowed(h, Began(p), next, entropy)
  {
    hide Supply, Stamp, FitsRecord;
  }

  lemma AllowMarked(h: History, r: Record, next: Record, entropy: nat)
    requires Cell(h) == Some(r) && Supply(h) <= entropy && r.pending.Some?
    requires next == r.(pending := Some(r.pending.value.(recoveryUsed := true)))
    ensures Allowed(h, RecoveryMarked, next, entropy)
  {
    AllowStep(h, r, RecoveryMarked, entropy);
    hide Allowed, Supply;
  }

  /// Marking a request for recovery changes nothing that its outcome depends on.
  lemma MarkedCompletes(r: Record, marked: Record)
    requires r.pending.Some? && marked == r.(pending := Some(r.pending.value.(recoveryUsed := true)))
    ensures RecoveryReference(marked) == RecoveryReference(r)
    ensures forall target, s :: Completed(marked, target, s) ==> Completed(r, target, s)
    ensures forall ref, s :: ResultsRecorded(ref, marked, s) ==> ResultsRecorded(ref, r, s)
    ensures forall ref, s :: RejectionsRecorded(ref, marked, s) ==> RejectionsRecorded(ref, r, s)
  {
  }

  lemma AllowDropped(h: History, r: Record, next: Record, entropy: nat)
    requires Cell(h) == Some(r) && Supply(h) <= entropy
    requires h.Then? && h.event.Saved? && Installs(h.event.step)
    requires r.pending.Some? && r.pending.value.target.Enroll? && next == r.(pending := None)
    ensures Allowed(h, EnrollDropped, next, entropy)
  {
    AllowStep(h, r, EnrollDropped, entropy);
    hide Allowed, Supply;
  }

  lemma AllowRejected(h: History, r: Record, entropy: nat)
    requires Cell(h) == Some(r) && Supply(h) <= entropy && Answered(h, r) && h.event.reply == Refused(false)
    ensures Reject(r).Some? && Allowed(h, Rejected, Reject(r).value, entropy)
  {
    AllowStep(h, r, Rejected, entropy);
    hide Allowed, Supply;
  }

  lemma AllowChained(h: History, r: Record, grant: string, nonce: nat, at: Instant, next: Record, entropy: nat)
    requires Cell(h) == Some(r) && Answered(h, r) && h.event.reply.Accepted?
    requires r.pending.Some? && r.pending.value.target.BrowserExchange?
    requires Json.Field(h.event.reply.data, Json.BootstrapGrant) == Some(grant) && Supply(h) <= nonce < entropy
    requires next == r.(pending := Some(BootstrapRequest(r, r.pending.value, grant, nonce, at)))
    ensures Allowed(h, Chained(grant, nonce, at), next, entropy)
  {
    hide Supply;
  }

  lemma AllowCancelRefused(h: History, r: Record, next: Record, entropy: nat)
    requires Cell(h) == Some(r) && Supply(h) <= entropy && Answered(h, r) && h.event.reply.Accepted?
    requires Json.At(h.event.reply.data, Json.Canceled) != Json.Bool(true)
    requires r.pending.Some? && r.pending.value.target.BrowserCancel?
    requires next == r.(pending := r.pending.value.superseded)
    ensures Allowed(h, CancelRefused, next, entropy)
  {
    AllowStep(h, r, CancelRefused, entropy);
    hide Allowed, Supply;
  }

  lemma AllowCancelConfirmed(h: History, r: Record, at: Instant, next: Record, entropy: nat)
    requires Cell(h) == Some(r) && Supply(h) <= entropy && Answered(h, r) && h.event.reply.Accepted?
    requires Json.At(h.event.reply.data, Json.Canceled) == Json.Bool(true)
    requires r.pending.Some? && r.pending.value.target.BrowserCancel? && r.logoutPending && at > 0
    requires next == r.(revocation := Some(Evidence(CredentialIdentity(r), CancelledInBrowser, at)))
    ensures Allowed(h, CancelConfirmed(at), next, entropy)
  {
    AllowStep(h, r, CancelConfirmed(at), entropy);
    hide Allowed, Supply, CredentialIdentity;
  }

  // ---- Bound recovery ------------------------------------------------------

  /// The exchange of a received code.
  function ExchangeRequest(login: Login, key: nat, nonce: nat): Body
    requires login.receivedCode.Some?
  {
    var code := login.receivedCode.value;
    ExchangeBody(login.transactionId, code, login.codeVerifier, login.redirectUri,
                 Proof(key, ProveExchange, code, nonce))
  }

  /// Nothing left the process between `p` and `h`.
  predicate NoSend(p: History, h: History) {
    p == h || (h.Then? && !h.event.Transmitted? && !h.event.Requested? && NoSend(p, h.past))
  }

  /// The receipt under `key` awaits exactly this reference.
  predicate BoundTo(cell: Option<Record>, key: string, reference: Reference) {
    cell.Some? && key in cell.value.recoveries && cell.value.recoveries[key].reference == reference
  }

  /// Whenever a request left, the key was already bound in the store.
  predicate SendsAreBound(p: History, h: History, key: string, reference: Reference) {
    p == h || (h.Then? && SendsAreBound(p, h.past, key, reference)
               && (h.event.Transmitted? || h.event.Requested? ==> BoundTo(Cell(h.past), key, reference)))
  }

  lemma {:induction false} BindingLasts(p: History, h: History, key: string, reference: Reference)
    requires Lawful(h) && Ran(p, h) && BoundTo(Cell(p), key, reference)
    ensures SendsAreBound(p, h, key, reference)
    ensures Continuous(p, h) ==> BoundTo(Cell(h), key, reference)
  {
    if p != h {
      BindingLasts(p, h.past, key, reference);
      if Continuous(p, h) {
        ReceiptsWriteOnce(p, h);
      }
    }
    hide LawfulEvent, Supply, RecoveryReference;
  }

  lemma {:induction false} SendsAfterBinding(p: History, b: History, h: History, key: string, reference: Reference)
    requires NoSend(p, b) && SendsAreBound(b, h, key, reference)
    ensures SendsAreBound(p, h, key, reference)
  {
    if b != h {
      SendsAfterBinding(p, b, h.past, key, reference);
    } else if p != b {
      SendsAfterBinding(p, b.past, b.past, key, reference);
    }
  }

  /// What a caller of the bound recovery is told.
  datatype Answer = Recovered(result: Reconciled) | Declined(rejection: Rejection) | Stopped(fault: Fault)

  /// What a stored receipt answers to a caller; none means that the request must be reconciled.
  function ReceiptAnswer(r: Record, key: string, expected: Option<Reference>): Option<Answer>
    requires key in r.recoveries
  {
    var receipt := r.recoveries[key];
    if receipt.installationId != r.installationId || (expected.Some? && expected.value != receipt.reference) then
      Some(Stopped(IdempotencyKeyReused))
    else if receipt.result.Some? then
      Some(Recovered(receipt.result.value))
    else if receipt.rejection.Some? then
      Some(Declined(receipt.rejection.value))
    else if expected.None? then
      Some(Stopped(BindingRequired))
    else if RecoveryReference(r) != expected then
      Some(Stopped(Fault.ReferenceMismatch))
    else
      None
  }

  /// A stored receipt answers only for the reference that it is bound to.
  predicate BoundAsExpected(cell: Option<Record>, key: string, expected: Option<Reference>) {
    && cell.Some? && key in cell.value.recoveries
    && cell.value.recoveries[key].installationId == cell.value.installationId
    && (expected.Some? ==> cell.value.recoveries[key].reference == expected.value)
  }

  /// The answer that one receipt gives by itself; it cannot give one while it waits.
  predicate AnswersFrom(receipt: Receipt, answer: Answer) {
    if receipt.result.Some? then answer == Recovered(receipt.result.value)
    else receipt.rejection.Some? && answer == Declined(receipt.rejection.value)
  }

  /// The receipt is this caller's and still waits for the operation in the record.
  predicate Waits(r: Record, key: string, expected: Option<Reference>) {
    && BoundAsExpected(Some(r), key, expected) && !r.recoveries[key].Settled()
    && expected.Some? && RecoveryReference(r) == expected
  }

  /// What a stored receipt answers at once, when it does not wait.
  predicate Replays(r: Record, key: string, expected: Option<Reference>, answer: Answer)
    requires key in r.recoveries
  {
    if !BoundAsExpected(Some(r), key, expected) then answer == Stopped(IdempotencyKeyReused)
    else if r.recoveries[key].Settled() then AnswersFrom(r.recoveries[key], answer)
    else answer == Stopped(if expected.None? then BindingRequired else Fault.ReferenceMismatch)
  }

  lemma StoredAnswer(r: Record, key: string, expected: Option<Reference>)
    requires key in r.recoveries
    ensures Waits(r, key, expected) <==> ReceiptAnswer(r, key, expected).None?
    ensures ReceiptAnswer(r, key, expected).Some? ==>
      Replays(r, key, expected, ReceiptAnswer(r, key, expected).value)
  {
    hide RecoveryReference;
  }

  /// The only callers for whom a request may be repeated.
  predicate MayReconcile(r: Record, key: string, expected: Option<Reference>) {
    && 16 <= |key| <= 256 && expected.Some? && RecoveryReference(r) == expected
    && (key in r.recoveries ==> Waits(r, key, expected))
  }

  /// A result or rejection is only ever reported from the receipt in the store
  /// that is bound to the caller's reference.
  predicate AnswerIsStored(cell: Option<Record>, key: string, expected: Option<Reference>, answer: Answer) {
    answer.Stopped? || (BoundAsExpected(cell, key, expected) && AnswersFrom(cell.value.recoveries[key], answer))
  }

  lemma AllowBound(h: History, r: Record, key: string, reference: Reference, entropy: nat)
    requires Cell(h) == Some(r) && Supply(h) <= entropy && BindReceipt(r, key, reference).Some?
    ensures Allowed(h, ReceiptBound(key, reference), BindReceipt(r, key, reference).value, entropy)
  {
    AllowStep(h, r, ReceiptBound(key, reference), entropy);
    hide Allowed, Supply, BindReceipt;
  }

  lemma BoundReceipt(r: Record, key: string, reference: Reference)
    requires BindReceipt(r, key, reference).Some?
    ensures var s := BindReceipt(r, key, reference).value;
      && RecoveryReference(s) == RecoveryReference(r) && s == r.(recoveries := s.recoveries)
      && key in s.recoveries && s.recoveries[key].reference == reference && s.recoveries[key].result.None?
      && (s.recoveries[key].rejection.None? <==> RecoveryReference(r) == Some(reference))
      && s.recoveries[key].installationId == r.installationId
  {
    assert BrowserGeneration(BindReceipt(r, key, reference).value) == BrowserGeneration(r);
  }

  // ---- Cancellation and logout ---------------------------------------------

  datatype FlowName = Flow(id: string) | LegacyFlow(key: nat, loginKey: string)

  /// `flow_identity`: records from before flow identifiers get a derived one.
  function FlowIdentity(r: Record, login: Login): FlowName {
    if login.flowId == "" then LegacyFlow(r.privateKey, login.key) else Flow(login.flowId)
  }

  predicate CancelPending(r: Record) {
    r.pending.Some? && r.pending.value.target.BrowserCancel?
  }

  /// Why a sign-in cannot be cancelled, decided before anything is written or sent.
  function CancelRefusal(r: Record, flow: FlowName): Option<Fault> {
    if r.device.Some? then Some(AlreadyCompleted)
    else if r.login.None? then Some(LoginRequired)
    else if FlowIdentity(r, r.login.value) != flow then Some(LoginFlowMismatch)
    else if r.login.value.transactionId.None? then Some(RecoveryPending)
    else if CancelPending(r) then None
    else if r.pending.Some? && !r.pending.value.target.BrowserExchange? && !r.pending.value.target.Bootstrap? then
      Some(RecoveryPending)
    else if r.login.value.browserState.None? then Some(LoginRequired)
    else None
  }

  /// A started browser sign-in under this name, with no request but its own.
  predicate MayCancel(r: Record, flow: FlowName) {
    && r.device.None? && r.login.Some? && FlowIdentity(r, r.login.value) == flow && r.login.value.transactionId.Some?
    && (r.pending.Some? ==> OfCancelledSignIn(r.pending.value.target))
    && (CancelPending(r) || r.login.value.browserState.Some?)
  }

  predicate OfCancelledSignIn(target: Target) {
    target.BrowserCancel? || target.BrowserExchange? || target.Bootstrap?
  }

  /// What a caller is told about a sign-in that cannot be cancelled: it is over,
  /// there is none, it is another one, or something else must be finished first.
  predicate RefusedFor(r: Record, flow: FlowName, fault: Fault) {
    && (r.device.Some? ==> fault.AlreadyCompleted?)
    && (r.device.None? && r.login.None? ==> fault.LoginRequired?)
    && (r.device.None? && r.login.Some? ==>
          if FlowIdentity(r, r.login.value) != flow then fault.LoginFlowMismatch?
          else if r.login.value.transactionId.None? then fault.RecoveryPending?
          else if r.pending.Some? && !OfCancelledSignIn(r.pending.value.target) then fault.RecoveryPending?
          else fault.LoginRequired?)
  }

  lemma RefusedExactly(r: Record, flow: FlowName)
    ensures MayCancel(r, flow) <==> CancelRefusal(r, flow).None?
    ensures CancelRefusal(r, flow).Some? ==> RefusedFor(r, flow, CancelRefusal(r, flow).value)
    ensures CancelRefusal(r, flow) == Some(LoginFlowMismatch) <==>
      r.device.None? && r.login.Some? && FlowIdentity(r, r.login.value) != flow
  {
  }

  /// The cancellation of this record's transaction, journaled with the request
  /// that it displaces. A sign-in that may be approved already is taken back too.
  predicate Cancels(r: Record, time: Instant, p: Pending) {
    && r.login.Some? && p.target.BrowserCancel? && p.route.CancelRoute? && p.body.CancelBody? && !p.recoveryUsed
    && p.body.transactionId == r.login.value.transactionId && Some(p.body.browserState) == r.login.value.browserState
    && p.superseded == r.pending && p.generation.None?
    && (p.body.revokeApproved <==>
          r.pending.Some? || r.login.value.receivedCode.Some? || r.login.value.expiresAt <= time)
    && Proves(r, p.body.proof, if p.body.revokeApproved then ProveCancelRecovery else ProveCancel, p.body.browserState)
  }

  /// The cancellation as it is journaled.
  function CancelRequest(r: Record, browserState: string, time: Instant, nonce: nat, at: Instant): Pending
    requires r.login.Some?
  {
    var login := r.login.value;
    var revokeApproved := r.pending.Some? || login.receivedCode.Some? || login.expiresAt <= time;
    var purpose := if revokeApproved then ProveCancelRecovery else ProveCancel;
    var proof := Proof(r.privateKey, purpose, browserState, nonce);
    Pending(BrowserCancel, RouteOf(BrowserCancel),
            CancelBody(login.transactionId, browserState, proof, revokeApproved), None, at, false, r.pending)
  }

  lemma CancelRequestFits(r: Record, browserState: string, time: Instant, nonce: nat, at: Instant)
    requires r.login.Some? && r.login.value.browserState == Some(browserState) && r.login.value.transactionId.Some?
    requires r.device.None?
    requires r.pending.Some? ==> r.pending.value.target.BrowserExchange? || r.pending.value.target.Bootstrap?
    ensures var p := CancelRequest(r, browserState, time, nonce, at);
      Cancels(r, time, p) && IsCancelIntent(r, p) && Stamp(p) == nonce
  {
  }

  lemma AllowIntent(h: History, r: Record, p: Pending, next: Record, entropy: nat)
    requires Cell(h) == Some(r) && IsCancelIntent(r, p) && Supply(h) <= Stamp(p) < entropy
    requires next == r.(pending := Some(p))
    ensures Allowed(h, CancelIntended(p), next, entropy)
  {
    SupplyCoversCell(h);
    hide Supply, Stamp;
  }

  lemma PendingCompletes(r: Record, s: Record)
    requires s == r.(pending := s.pending)
    ensures forall target, t :: Completed(s, target, t) ==> Completed(r, target, t)
  {
  }

  /// What a logout reports.
  datatype Logout = Logout(confirmed: bool, identity: Option<Identity>, removed: bool)

  /// A started sign-in without flow identifier, and nothing else to revoke.
  predicate LegacySignIn(r: Record) {
    r.device.None? && BrowserStarted(r) && r.login.value.flowId == "" && r.children == map[]
  }

  /// A sound record of that kind: a cancellation and a logout both refuse it for good.
  lemma LegacySignInExists() returns (r: Record)
    ensures Sound(r) && LegacySignIn(r) && !ValidRevocation(r)
    ensures CancelRefusal(r, Flow(r.login.value.flowId)) == Some(LoginFlowMismatch)
    ensures r.login.value.browserState.Some? && r.login.value.expiresAt == MAX_U64
  {
    var login := Login("login-key-00000001", "runner", "", MAX_U64, Some("url"), Some("transaction"), Some("uri"),
                       Some("state"), Some("verifier"), None);
    r := Fresh("installation", 7).(login := Some(login));
  }

  /// The faults of a device logout once its identity is admitted.
  predicate RevokeFault(f: Fault) {
    StoreFault(f) || f.Api? || f.LogoutFailed? || f.IdentityChanged? || f.AuthRequired?
  }

  /// The caller expects no identity, or this one.
  predicate Admits(r: Record, expected: Option<Identity>) {
    expected.None? || expected.value == CredentialIdentity(r)
  }

  /// The last record was cleared, the report agrees with it, and it was deleted only after that.
  predicate CleanedUp(installationId: string, h: History, cell: Option<Record>, report: Logout, delete: bool) {
    var clearing := if delete && h.Then? then h.past else h;
    && clearing.Then? && clearing.event.Saved? && clearing.event.step.LogoutCleared?
    && NothingLeft(clearing.event.record) && clearing.event.record.installationId == installationId
    && report == Logout(ValidRevocation(clearing.event.record), Some(CredentialIdentity(clearing.event.record)), delete)
    && (if delete then h.Then? && h.event.Deleted? && cell.None? else cell == Some(clearing.event.record))
  }

  lemma AllowRevoked(h: History, r: Record, at: Instant, next: Record, entropy: nat)
    requires Cell(h) == Some(r) && Supply(h) <= entropy && r.logoutPending && r.device.Some? && at > 0
    requires h.Then? && h.event.Requested? && h.event.call.LogoutCall? && h.event.reply.Accepted?
    requires h.event.bearer == Some(BearerOf(r.device.value))
    requires Json.At(h.event.reply.data, Json.Revoked) == Json.Bool(true)
    requires next == r.(revocation := Some(Evidence(CredentialIdentity(r), DeviceLogout, at)))
    ensures Allowed(h, DeviceRevoked(at), next, entropy) && ValidRevocation(next)
  {
    AllowStep(h, r, DeviceRevoked(at), entropy);
    hide Allowed, Supply;
  }

  lemma AllowLogoutIntent(h: History, r: Record, entropy: nat)
    requires Cell(h) == Some(r) && Supply(h) <= entropy && !ValidRevocation(r)
    ensures var next := r.(logoutPending := true);
      Allowed(h, LogoutIntended, next, entropy) && !ValidRevocation(next) && (LegacySignIn(r) <==> LegacySignIn(next))
  {
    AllowStep(h, r, LogoutIntended, entropy);
    hide Allowed, Supply;
  }

  lemma AllowCleared(h: History, r: Record, entropy: nat)
    requires Cell(h) == Some(r) && Supply(h) <= entropy && ClearLogout(r).Some?
    ensures Allowed(h, LogoutCleared, LoggedOut(r), entropy)
    ensures NothingLeft(LoggedOut(r)) && LoggedOut(r).installationId == r.installationId
  {
    AllowStep(h, r, LogoutCleared, entropy);
    hide Allowed, Supply, ValidRevocation, NothingToRevoke;
  }

  /// A completed cancellation leaves its evidence, or nothing that needs any.
  lemma CancelledLeavesNothing(r: Record, s: Record)
    requires Completed(r, BrowserCancel, s) && r.logoutPending && r.device.None? && r.children == map[]
    ensures s.device.None? && s.logoutPending && s.installationId == r.installationId
    ensures NothingToRevoke(s)
  {
  }

  /// Evidence that did not cover the record before its bootstrap does not cover the new device.
  lemma BootstrapHasNoEvidence(r: Record, s: Record)
    requires Completed(r, Bootstrap, s) && r.device.None? && !ValidRevocation(r)
    ensures s.device.Some? && !ValidRevocation(s) && s.logoutPending == r.logoutPending
    ensures s.installationId == r.installationId
  {
  }

  // ---- Sign-in -------------------------------------------------------------

  datatype SignIn = Authenticated | Waiting(login: Login)

  predicate Blank(text: string) {
    forall c <- text :: c in " \t\r\n"
  }

  /// The same browser flow; only what the server says about it may differ.
  predicate SameFlow(a: Login, b: Login) {
    && a.key == b.key && a.runnerName == b.runnerName && a.flowId == b.flowId && a.redirectUri == b.redirectUri
    && a.browserState == b.browserState && a.codeVerifier == b.codeVerifier && a.receivedCode == b.receivedCode
  }

  /// The store holds this offered flow, and nothing else is in progress.
  predicate Awaiting(cell: Option<Record>, login: Login, key: string, runnerName: string) {
    && cell.Some? && cell.value.login == Some(login) && cell.value.device.None? && cell.value.pending.None?
    && login.key == key && login.runnerName == runnerName && login.authorizationUrl.Some?
  }

  predicate OrganizationName(org: string) {
    org != "" && forall c <- org :: 'a' <= c <= 'z' || 'A' <= c <= 'Z' || '0' <= c <= '9' || c == '-' || c == '_'
  }

  datatype Offer = Offer(url: string, transactionId: string, expiresAt: Instant)

  /// A decided flow is reported as expired: it can only be reconciled or cancelled.
  function ParseOffer(data: Json.Value): Option<Offer> {
    var path := Json.Field(data, Json.AuthorizationPath);
    var transaction := Json.Field(data, Json.TransactionId);
    var expiresAt := Json.AsU64(Json.At(data, Json.ExpiresAt));
    if path.None? || transaction.None? || expiresAt.None? then None else
    match Json.Get(data, Json.Status)
    case None => Some(Offer(path.value, transaction.value, expiresAt.value))
    case Some(Text("pending")) => Some(Offer(path.value, transaction.value, expiresAt.value))
    case Some(Text(status)) =>
      if status in ["approved", "consumed", "denied", "revoked", "expired"]
      then Some(Offer(path.value, transaction.value, 0)) else None
    case _ => None
  }

  /// Whose callback this is.
  predicate CallbackMatches(r: Record, flowId: string, browserState: string) {
    r.login.Some? && r.login.value.flowId == flowId && r.login.value.browserState == Some(browserState)
  }

  lemma AllowLogin(h: History, base: Record, login: Login, entropy: nat)
    requires Cell(h) == Some(base) || (Cell(h).None? && base == Fresh(base.installationId, base.privateKey))
    requires Supply(h) <= entropy && !base.logoutPending && base.pending.None? && base.device.None?
    ensures Allowed(h, LoginStarted(base, login), base.(revocation := None, login := Some(login)), entropy)
  {
    if Cell(h).Some? {
      AllowStep(h, base, LoginStarted(base, login), entropy);
    }
    hide Supply;
  }

  lemma AllowOffer(h: History, r: Record, offer: Offer, next: Record, entropy: nat)
    requires Cell(h) == Some(r) && Supply(h) <= entropy && r.login.Some?
    requires AnswersCall(h, StartCall(r.login.value.key)) && ParseOffer(h.event.reply.data) == Some(offer)
    requires next == r.(login := Some(r.login.value.(authorizationUrl := Some(offer.url),
                                                     transactionId := Some(offer.transactionId),
                                                     expiresAt := offer.expiresAt)))
    ensures Allowed(h, LoginOffered(offer.url, offer.transactionId, offer.expiresAt), next, entropy)
  {
    AllowStep(h, r, LoginOffered(offer.url, offer.transactionId, offer.expiresAt), entropy);
    hide Allowed, Supply;
  }

  lemma AllowDeclined(h: History, r: Record, entropy: nat)
    requires Cell(h) == Some(r) && Supply(h) <= entropy && r.login.Some?
    ensures Allowed(h, LoginDeclined, r.(login := None), entropy)
  {
    AllowStep(h, r, LoginDeclined, entropy);
    hide Allowed, Supply;
  }

  lemma AllowCode(h: History, r: Record, code: string, entropy: nat)
    requires Cell(h) == Some(r) && Supply(h) <= entropy && ReceiveCode(r, code).Some?
    ensures Allowed(h, CodeReceived(code), ReceiveCode(r, code).value, entropy)
  {
    AllowStep(h, r, CodeReceived(code), entropy);
    hide Allowed, Supply;
  }

  /// The organization is marked as enrolled; what was known of it, and of every other one, is kept.
  predicate MarksEnrolled(p: map<string, Profile>, org: string, q: map<string, Profile>) {
    && org in q && q - {org} == p - {org} && q[org].enrolled
    && (if org in p then q[org].name == p[org].name && q[org].slug == p[org].slug
        else q[org].name.None? && q[org].slug.None?)
  }

  lemma AllowSelected(h: History, r: Record, org: string, entropy: nat)
    requires Cell(h) == Some(r) && Supply(h) <= entropy && org in r.children
    ensures SelectOrg(r, org).Some? && Allowed(h, OrgSelected(org), SelectOrg(r, org).value, entropy)
    ensures var s := SelectOrg(r, org).value;
      s == r.(active := Some(org), profiles := s.profiles) && MarksEnrolled(r.profiles, org, s.profiles)
  {
    AllowStep(h, r, OrgSelected(org), entropy);
    hide Allowed, Supply;
  }

  lemma AllowUpgrade(h: History, r: Record, org: string, key: string, u: Upgrade, entropy: nat)
    requires Cell(h) == Some(r) && Supply(h) <= entropy && SaveUpgrade(r, org, key, u).Some?
    requires Supported(h, r, UpgradeSaved(org, key, u))
    ensures Allowed(h, UpgradeSaved(org, key, u), SaveUpgrade(r, org, key, u).value, entropy)
  {
    AllowStep(h, r, UpgradeSaved(org, key, u), entropy);
    hide Allowed, Supply, Supported;
  }

  // ---- Scopes --------------------------------------------------------------

  /// Nothing but rotations and self descriptions.
  predicate Inspects(p: History, h: History) {
    p == h ||
    (&& h.Then? && (RotationEvent(h.event) || (h.event.Requested? && h.event.call.SelfCall?))
     && Inspects(p, h.past))
  }

  lemma AskedOnly(p: History, h: History)
    requires h.Then? && h.past == p && h.event.Requested?
    ensures h.event.call.SelfCall? ==> Inspects(p, h)
  {
    assert Inspects(p, p);
  }

  lemma {:induction false} InspectsThenRotates(a: History, b: History, c: History)
    requires Inspects(a, b) && RotationOnly(b, c)
    ensures Inspects(a, c)
  {
    if b != c {
      InspectsThenRotates(a, b, c.past);
    }
  }

  lemma {:induction false} InspectsTransitive(a: History, b: History, c: History)
    requires Inspects(a, b) && Inspects(b, c)
    ensures Inspects(a, c)
  {
    if b != c {
      InspectsTransitive(a, b, c.past);
    }
  }

  /// The last answer verified `b` for the credential that asked.
  predicate SelfVerified(h: History, org: string, b: Binding) {
    && AnswersCall(h, SelfCall(org)) && Cell(h).Some?
    && Attests(Cell(h).value, org, h.event.reply.data, b, Some(b)) && HoldsWholeGrant(h.event.reply.data, b)
    && (var child := Cell(h).value.children[org]; h.event.bearer == Some(Bearer(child.access, child.subject)))
  }

  /// What one look at the own description leaves: the same upgrades, and a
  /// verified binding only from the last answer.
  predicate Inspected(h: History, r: Record, s: Record, org: string, expected: Option<Binding>, a: Assessment) {
    && !s.logoutPending && s.upgrades == r.upgrades && org in s.children
    && (a.VerifiedAs? ==>
          (&& SelfVerified(h, org, a.binding) && a.binding.org == org
           && (expected.Some? ==> a.binding.SameAttachment(expected.value))))
  }

  lemma InspectedSince(h: History, r: Record, m: Record, s: Record, org: string, expected: Option<Binding>,
                       a: Assessment)
    requires Inspected(h, m, s, org, expected, a) && m.upgrades == r.upgrades
    ensures Inspected(h, r, s, org, expected, a)
  {
    hide SelfVerified;
  }

  lemma InspectedKeeps(h: History, r: Record, s: Record, org: string, expected: Option<Binding>, a: Assessment)
    requires Inspected(h, r, s, org, expected, a)
    ensures !s.logoutPending && s.upgrades == r.upgrades
    ensures Verdict(a).Success? ==> SelfVerified(h, org, Verdict(a).value) && Verdict(a).value.org == org
    ensures Verdict(a).Success? && expected.Some? ==> Verdict(a).value.SameAttachment(expected.value)
  {
    hide SelfVerified;
  }

  /// The last answer showed that the stored child's token is older than its grant.
  predicate AnsweredStale(h: History, org: string, expected: Option<Binding>) {
    && AnswersCall(h, SelfCall(org)) && Cell(h).Some?
    && Assess(Cell(h).value, org, h.event.reply.data, expected).StaleToken?
  }

  /// Whatever was journaled rotates a token found expired, or answers at once to
  /// a self description that found it stale.
  predicate StaleOnly(p: History, h: History, org: string, expected: Option<Binding>, clock: seq<Instant>) {
    p == h ||
    (&& h.Then? && StaleOnly(p, h.past, org, expected, clock)
     && (JournalsAnew(h.event) && !Due(Cell(h.past), h.event.step.request.target, clock) ==>
           h.event.step.request.target == ChildRefresh(org) && AnsweredStale(h.past, org, expected)))
  }

  lemma {:induction false} StaleOnlyTransitive(a: History, b: History, c: History, org: string,
                                               expected: Option<Binding>, clock: seq<Instant>)
    requires StaleOnly(a, b, org, expected, clock) && StaleOnly(b, c, org, expected, clock)
    ensures StaleOnly(a, c, org, expected, clock)
  {
    if b != c {
      StaleOnlyTransitive(a, b, c.past, org, expected, clock);
    }
    hide Due, AnsweredStale;
  }

  lemma {:induction false} DueIsStaleOnly(p: History, h: History, org: string, expected: Option<Binding>,
                                          clock: seq<Instant>)
    requires OnlyDue(p, h, clock, 0)
    ensures StaleOnly(p, h, org, expected, clock)
    decreases h
  {
    if p != h {
      DueIsStaleOnly(p, h.past, org, expected, clock);
    }
    hide Due, AnsweredStale;
  }

  lemma {:induction false} StaleSooner(p: History, h: History, org: string, expected: Option<Binding>,
                                       fewer: seq<Instant>, clock: seq<Instant>)
    requires StaleOnly(p, h, org, expected, fewer) && forall time <- fewer :: time in clock
    ensures StaleOnly(p, h, org, expected, clock)
  {
    if p != h {
      StaleSooner(p, h.past, org, expected, fewer, clock);
    }
    hide AnsweredStale;
  }

  lemma {:induction false} OnceIsStaleOnly(p: History, h: History, org: string, expected: Option<Binding>,
                                           clock: seq<Instant>)
    requires OnceAt(p, h, ChildRefresh(org)) && AnsweredStale(p, org, expected)
    ensures StaleOnly(p, h, org, expected, clock)
  {
    if p != h {
      OnceIsStaleOnly(p, h.past, org, expected, clock);
    }
    hide Due, AnsweredStale;
  }

  /// One rotation because of a stale token, and a look after it.
  predicate RotatesForStale(p: History, h: History, org: string, expected: Option<Binding>, time: Instant) {
    Inspects(p, h) && OnlyDue(p, h, [time], 1) && StaleOnly(p, h, org, expected, [time])
  }

  lemma RotatedForStale(p: History, h: History, org: string, expected: Option<Binding>, time: Instant)
    requires OnceAt(p, h, ChildRefresh(org)) && RotationOnly(p, h) && AnsweredStale(p, org, expected)
    ensures RotatesForStale(p, h, org, expected, time)
  {
    assert Inspects(p, p);
    InspectsThenRotates(p, p, h);
    OneRotation(p, h, ChildRefresh(org), [time]);
    OnceIsStaleOnly(p, h, org, expected, [time]);
    hide OnceAt, RotationOnly, AnsweredStale, OnlyDue, StaleOnly, Inspects;
  }

  lemma LookedAfterRotation(p: History, b: History, h: History, org: string, expected: Option<Binding>, time: Instant)
    requires RotatesForStale(p, b, org, expected, time) && Inspects(b, h) && OnlyDue(b, h, [time], 0)
    ensures RotatesForStale(p, h, org, expected, time)
  {
    InspectsTransitive(p, b, h);
    OnlyDueAdd(p, b, h, [time], 1, 0);
    DueIsStaleOnly(b, h, org, expected, [time]);
    StaleOnlyTransitive(p, b, h, org, expected, [time]);
    hide OnlyDue, StaleOnly, Inspects;
  }

  /// One look, or a second one after a rotation because of a stale token.
  predicate LooksAgain(p: History, h: History, org: string, expected: Option<Binding>, clock: seq<Instant>) {
    Inspects(p, h) && OnlyDue(p, h, clock, 1) && StaleOnly(p, h, org, expected, clock)
  }

  lemma LookedOnce(p: History, h: History, org: string, expected: Option<Binding>, clock: seq<Instant>)
    requires Inspects(p, h) && |clock| == 2 && OnlyDue(p, h, [clock[0]], 0)
    ensures LooksAgain(p, h, org, expected, clock) && OnlyDue(p, h, clock, 0)
  {
    DueSooner(p, h, [clock[0]], clock, 0);
    DueIsStaleOnly(p, h, org, expected, clock);
    MoreFree(p, h, clock, 0, 1);
    hide OnlyDue, StaleOnly, Inspects;
  }

  lemma LookedTwice(p: History, b: History, h: History, org: string, expected: Option<Binding>, clock: seq<Instant>)
    requires LooksAgain(p, b, org, expected, clock) && |clock| == 2 && OnlyDue(p, b, clock, 0)
    requires RotatesForStale(b, h, org, expected, clock[1])
    ensures LooksAgain(p, h, org, expected, clock)
  {
    InspectsTransitive(p, b, h);
    DueSooner(b, h, [clock[1]], clock, 1);
    OnlyDueAdd(p, b, h, clock, 0, 1);
    StaleSooner(b, h, org, expected, [clock[1]], clock);
    StaleOnlyTransitive(p, b, h, org, expected, clock);
    hide OnlyDue, StaleOnly, Inspects;
  }

  function Verdict(a: Assessment): Result<Binding, Fault> {
    match a
    case VerifiedAs(binding) => Success(binding)
    case WrongOwner => Failure(IdentityChanged)
    case Malformed => Failure(InvalidResponse)
    case _ => Failure(ScopeVerificationRequired)
  }

  lemma ExpectedBinding(r: Record, org: string, data: Json.Value, expected: Option<Binding>, b: Binding)
    requires Assess(r, org, data, expected) == VerifiedAs(b)
    ensures Attests(r, org, data, b, Some(b)) && HoldsWholeGrant(data, b)
    ensures org in r.children && r.device.Some? && b.runnerId == r.children[org].subject
    ensures b.deviceId == r.device.value.subject && b.org == org
    ensures expected.Some? ==> b.SameAttachment(expected.value)
  {
    VerifiedMeansClosedGrant(r, org, data, expected, b);
    hide Assess, HoldsWholeGrant, IsUuid;
  }

  /// The journaled upgrade belongs to this record's device and child.
  predicate OwnUpgrade(r: Record, org: string, u: Upgrade) {
    && r.device.Some? && u.binding.deviceId == r.device.value.subject
    && org in r.children && u.binding.runnerId == r.children[org].subject
  }

  /// The attachment that an enrollment discovery reports, if it is this record's own.
  function DiscoveredBinding(r: Record, org: string, data: Json.Value): Result<Binding, Fault>
    requires org in r.children && r.device.Some?
  {
    var runner := r.children[org].subject;
    var device := r.device.value.subject;
    if Json.At(Json.At(data, Json.Runner), Json.Id) != Json.Text(runner) then
      Failure(IdentityChanged)
    else
      match Json.Field(Json.At(data, Json.Child), Json.DelegationId)
      case None => Failure(InvalidResponse)
      case Some(delegation) =>
        var declared := Json.Get(data, Json.DeviceId);
        if declared.Some? && declared.value != Json.Text(device) then Failure(IdentityChanged)
        else Success(Binding(org, runner, device, delegation, []))
  }

  /// What a grant receipt makes of a journaled upgrade.
  function GrantedUpgrade(u: Upgrade, org: string, data: Json.Value): Result<Upgrade, Fault> {
    var b := u.binding;
    if Json.At(data, Json.DeviceId) != Json.Text(b.deviceId) || Json.At(data, Json.RunnerId) != Json.Text(b.runnerId)
       || Json.At(data, Json.DelegationId) != Json.Text(b.delegationId)
       || Json.At(data, Json.OrganizationId) != Json.Text(b.org) then
      Failure(IdentityChanged)
    else if Texts(Json.At(data, Json.RequestedScopes)) != Some(u.requested) then
      Failure(InvalidResponse)
    else if Json.At(data, Json.Status) == Json.Text("denied") then
      var granted := Texts(Json.At(data, Json.GrantedScopes));
      Success(u.(phase := Denied, binding := b.(scopes := if granted.Some? then granted.value else [])))
    else if Json.At(data, Json.Status) == Json.Text("granted")
            && Json.At(data, Json.RefreshRequired) == Json.Bool(true) then
      Success(u.(phase := RefreshPending))
    else
      Failure(InvalidResponse)
  }

  /// The last write journaled this verdict, and the answer before it gave the
  /// verdict for exactly this attachment and request.
  predicate GrantJournaled(h: History, org: string, key: string, u: Upgrade) {
    && h.Then? && h.event.Saved? && h.event.step == UpgradeSaved(org, key, u)
    && AnswersCall(h.past, GrantCall(org, key)) && Decides(h.past.event.reply.data, u, u)
  }

  lemma GrantAnswer(u: Upgrade, org: string, data: Json.Value)
    ensures GrantedUpgrade(u, org, data).Success? ==> Decides(data, u, GrantedUpgrade(u, org, data).value)
    ensures Receipts(data, u) && Json.At(data, Json.Status) == Json.Text("denied") ==>
      GrantedUpgrade(u, org, data).Success? && GrantedUpgrade(u, org, data).value.phase.Denied?
    ensures
      (&& Receipts(data, u) && Json.At(data, Json.Status) == Json.Text("granted")
       && Json.At(data, Json.RefreshRequired) == Json.Bool(true))
      ==> GrantedUpgrade(u, org, data) == Success(u.(phase := RefreshPending))
  {
  }

  lemma DiscoveryAttaches(r: Record, org: string, data: Json.Value, requested: seq<string>)
    requires org in r.children && r.device.Some? && DiscoveredBinding(r, org, data).Success?
    ensures Discovers(r, org, data, Upgrade(GrantPending, DiscoveredBinding(r, org, data).value, requested))
  {
  }

  predicate Covers(scopes: seq<string>, requested: seq<string>) {
    forall scope <- requested :: scope in scopes
  }

  /// What is stored once an upgrade is settled, and what it is worth.
  predicate UpgradeSettled(cell: Option<Record>, org: string, key: string, requested: seq<string>, u: Upgrade) {
    && cell.Some? && (org, key) in cell.value.upgrades && cell.value.upgrades[(org, key)] == u
    && (u.phase.Verified? || u.phase.Denied?) && u.requested == requested
    && cell.value.device.Some? && u.binding.deviceId == cell.value.device.value.subject
    && (u.phase.Verified? ==> org in cell.value.children && u.binding.runnerId == cell.value.children[org].subject)
  }

  /// A later call under the same key is refused, or serves the same attachment;
  /// a verdict is repeated as it was, without any effect.
  predicate KeepsUpgrade(u: Upgrade, requested: seq<string>, r: Result<Upgrade, Fault>, untouched: bool) {
    && (u.requested != requested ==> r.Failure? && untouched)
    && (r.Success? ==> r.value.binding.SameAttachment(u.binding))
    && (u.phase.Verified? || u.phase.Denied? ==> untouched && (r.Success? ==> r.value == u))
  }

  lemma MaySettle(h: History, r: Record, org: string, key: string, u: Upgrade)
    requires Cell(h) == Some(r) && SelfVerified(h, org, u.binding) && u.phase.Verified? && u.binding.org == org
    requires (org, key) in r.upgrades && r.upgrades[(org, key)].phase.RefreshPending?
    requires u.requested == r.upgrades[(org, key)].requested && u.binding.SameAttachment(r.upgrades[(org, key)].binding)
    ensures Supported(h, r, UpgradeSaved(org, key, u)) && SaveUpgrade(r, org, key, u).Some? && OwnUpgrade(r, org, u)
  {
    hide Supply, HoldsWholeGrant, Describes;
  }
}
