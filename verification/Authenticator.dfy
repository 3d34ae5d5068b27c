// The operations of `Auth` over one credential store. Every operation works on
// its own copy of the record, writes the copy back whole, and may be cut short
// at any store or network call. The ghost history records what took effect, and
// `Valid` says that all of it was lawful.

module Authenticator {
  import opened Basics
  import opened Credentials
  import opened AuthHistory
  import opened AuthInvariant
  import opened AuthTheorems
  import opened LogoutTheorems
  import opened AuthOutcomes
  import opened Scopes
  import Json

  class Auth {
    var cell: Option<Record>
    var entropy: nat
    ghost var history: History

    ghost predicate Valid()
      reads this
    {
      Lawful(history) && cell == Cell(history) && Supply(history) <= entropy
    }

    constructor (stored: Option<Record>)
      ensures Valid() && history == Boot(stored)
    {
      cell := stored;
      entropy := RecordSupply(stored);
      history := Boot(stored);
    }

    // ---- Store, network, clock and random values ---------------------------

    method Load() returns (r: Result<Option<Record>, Fault>)
      ensures r.Success? ==> r.value == cell
      ensures r.Failure? ==> StoreFault(r.error)
    {
      if * {
        r := Success(cell);
      } else if * {
        r := Failure(StoreUnavailable);
      } else {
        r := Failure(Halted);
      }
    }

    method Required() returns (r: Result<Record, Fault>)
      ensures r.Success? ==> cell == Some(r.value)
      ensures r.Failure? ==> StoreFault(r.error) || (r.error.AuthRequired? && cell.None?)
    {
      var loaded :- Load();
      r := match loaded case Some(record) => Success(record) case None => Failure(AuthRequired);
    }

    /// The write lands and is confirmed, lands unnoticed, or does not land.
    method Save(next: Record, ghost step: Step) returns (r: Result<(), Fault>)
      requires Valid() && Allowed(history, step, next, entropy)
      modifies this
      ensures Spends(old(history), history, if step.Began? then 1 else 0, if step.RecoveryMarked? then 1 else 0)
      ensures Valid() && entropy == old(entropy)
      ensures history == old(history) || history == Then(old(history), Saved(step, next))
      ensures r.Success? ==> history == Then(old(history), Saved(step, next)) && cell == Some(next)
      ensures r.Failure? ==> StoreFault(r.error)
      ensures Continuous(old(history), history)
      ensures RotationEvent(Saved(step, next)) ==> RotationOnly(old(history), history)
    {
      if * {
        cell := Some(next);
        history := Then(history, Saved(step, next));
        if * {
          r := Success(());
        } else if * {
          r := Failure(StoreOperationPending);
        } else {
          r := Failure(Halted);
        }
      } else {
        r := Failure(StoreUnavailable);
      }
      hide Permitted, RecordSupply;
    }

    /// Posts the journaled request. Someone else may replace the record meanwhile.
    method Transport(p: Pending, recovery: bool, bearer: Option<Bearer>) returns (reply: Reply)
      requires Valid() && MayTransmit(history, p, recovery, bearer)
      modifies this
      ensures Spends(old(history), history, 0, 0)
      ensures Valid()
      ensures var sent := Then(old(history), Transmitted(p, recovery, bearer, reply));
        (history == sent && cell == old(cell)) || (history == Then(sent, Overwritten(cell)) && cell != old(cell))
    {
      reply := *;
      history := Then(history, Transmitted(p, recovery, bearer, reply));
      Interfere();
      hide MayTransmit;
    }

    method Ask(call: Call, bearer: Option<Bearer>) returns (reply: Reply)
      requires Valid() && MayRequest(history, call, bearer)
      modifies this
      ensures !call.GrantCall? ==> Spends(old(history), history, 0, 0)
      ensures Valid()
      ensures var sent := Then(old(history), Requested(call, bearer, reply));
        (history == sent && cell == old(cell)) || (history == Then(sent, Overwritten(cell)) && cell != old(cell))
    {
      reply := *;
      history := Then(history, Requested(call, bearer, reply));
      Interfere();
      hide MayRequest;
    }

    method Interfere()
      requires Valid()
      modifies this
      ensures Spends(old(history), history, 0, 0)
      ensures Valid()
      ensures (history == old(history) && cell == old(cell))
              || (history == Then(old(history), Overwritten(cell)) && cell != old(cell))
    {
      var foreign: Option<Record> := *;
      if foreign != cell {
        cell := foreign;
        history := Then(history, Overwritten(foreign));
        if entropy < RecordSupply(foreign) {
          entropy := RecordSupply(foreign);
        }
      }
      hide RecordSupply;
    }

    method Now() returns (time: Instant)
      ensures time > 0
    {
      time :| 0 < time <= MAX_U64;
    }

    method ReadTwice() returns (clock: seq<Instant>)
      ensures |clock| == 2
    {
      var first := Now();
      var second := Now();
      clock := [first, second];
    }

    method RandomValue() returns (value: nat)
      requires Valid()
      modifies this`entropy
      ensures Valid() && Supply(history) <= value < entropy && old(entropy) <= value
    {
      value := entropy;
      entropy := entropy + 1;
      hide Supply, Lawful;
    }

    /// A response is used only if the record is still the one the request left with.
    method Revalidate(expected: Record) returns (r: Result<(), Fault>)
      ensures r.Success? ==> cell == Some(expected)
      ensures r.Failure? ==>
        StoreFault(r.error) || ((r.error.IdentityChanged? || r.error.AuthRequired?) && cell != Some(expected))
    {
      var current :- Required();
      if current == expected {
        r := Success(());
      } else {
        r := Failure(IdentityChanged);
      }
    }

    // ---- The journaled request ---------------------------------------------

    /// Adopts an accepted answer and settles its receipts in one write.
    method Settle(state: Record, data: Json.Value) returns (r: Result<(), Fault>, next: Record)
      requires Valid() && cell == Some(state) && state.pending.Some?
      requires Supported(history, state, Adopted(data))
      modifies this
      ensures Spends(old(history), history, 0, 0)
      ensures Valid() && entropy == old(entropy)
      ensures history == old(history) || history == Then(old(history), Saved(Adopted(data), next))
      ensures r.Success? ==> Adopt(state, data) == Some(next) && cell == Some(next)
      ensures r.Success? ==> history == Then(old(history), Saved(Adopted(data), next))
      // The token in the store is the one in the answer, and every waiting receipt reports this very record.
      ensures r.Success? ==> StoresReply(state.pending.value.target, next, data)
      ensures r.Success? ==> ReceiptChange(state, Adopted(data), next)
      ensures r.Failure? ==> StoreFault(r.error) || (r.error.InvalidResponse? && Adopt(state, data).None?)
    {
      next := state;
      var adopted := Adopt(state, data);
      if adopted.None? {
        return Failure(InvalidResponse), next;
      }
      next := adopted.value;
      AllowAdopted(history, state, data, entropy);
      AdoptionStoresReply(state, data);
      AdoptionReceipts(state, data);
      r := Save(next, Adopted(data));
      hide Begun, Repeats, Grants, Allowed, Supply, LawfulEvent, Supported, Adopt, StoresReply, ReceiptChange;
    }

    /// Settles any request but a cancellation, which may owe evidence first.
    method SettleRequest(state: Record, data: Json.Value) returns (r: Result<(), Fault>, next: Record)
      requires Valid() && cell == Some(state) && AnsweredWith(history, state, data) && !CancelPending(state)
      modifies this
      ensures Spends(old(history), history, 0, 0)
      ensures Valid() && entropy == old(entropy)
      ensures history == old(history) || history == Then(old(history), Saved(Adopted(data), next))
      ensures Continuous(old(history), history) && RotationOnly(old(history), history)
      ensures r.Success? ==> history == Then(old(history), Saved(Adopted(data), next))
      ensures r.Failure? ==> StoreFault(r.error) || r.error.InvalidResponse?
      ensures Sent(r, state, next, history, cell)
    {
      assert Supported(history, state, Adopted(data));
      r, next := Settle(state, data);
      RotatedBy(old(history), history);
      if r.Success? {
        AdoptionCompletes(state, data);
        AdoptRecords(state, data);
      }
      hide Begun, Repeats, Grants, Adopt, RecoveryReference, Completed, LawfulEvent, ResultsRecorded, Supply,
        StoresReply, Continuous, RotationOnly;
    }

    /// One round trip: the answer is returned only if the record did not change.
    method Dispatch(state: Record, recovery: bool, bearer: Option<Bearer>) returns (r: Result<Reply, Fault>)
      requires Valid() && cell == Some(state) && state.pending.Some?
      requires MayTransmit(history, state.pending.value, recovery, bearer)
      modifies this
      ensures Spends(old(history), history, 0, 0)
      ensures Valid() && Ran(old(history), history)
      ensures r.Success? ==> Continuous(old(history), history) && cell == Some(state) && !r.value.Lost?
      ensures r.Success? ==> Answered(history, state) && history.event.reply == r.value
      ensures r.Failure? ==> StoreFault(r.error) || (history.Then? && history.event.Overwritten?)
      ensures r.Failure? ==> SendFault(r.error) && !r.error.Api? && !r.error.LoginAlreadyApproved?
      ensures RotationTarget(state.pending.value.target) ==> RotationOnly(old(history), history)
    {
      var p := state.pending.value;
      var reply := Transport(p, recovery, bearer);
      ghost var sent := Then(old(history), Transmitted(p, recovery, bearer, reply));
      assert RotationOnly(old(history), old(history)) && Continuous(old(history), sent);
      if reply.Lost? {
        return Failure(Halted);
      }
      var _ :- Revalidate(state);
      r := Success(reply);
      hide Begun, Repeats, Grants, Supply, LawfulEvent, MayTransmit;
    }

    /// A definite rejection settles the receipts of the request; a retryable one changes nothing.
    method Refuse(state: Record, retryable: bool) returns (r: Result<(), Fault>, next: Record)
      requires Valid() && cell == Some(state) && Answered(history, state) && history.event.reply == Refused(retryable)
      modifies this
      ensures Spends(old(history), history, 0, 0)
      ensures Valid() && Continuous(old(history), history) && RotationOnly(old(history), history)
      ensures history == old(history) || (history.Then? && history.past == old(history)
                                          && history.event == Saved(Rejected, next))
      ensures r.Failure? && (StoreFault(r.error) || r.error == Api(retryable))
      ensures r.error.Api? ==> cell == Some(next)
      ensures Sent(r, state, next, history, cell)
      ensures r.error == Api(true) ==> next == state
      ensures r.error == Api(false) ==>
        LeftAsItWas(state, next) && RejectionsRecorded(RecoveryReference(state).value, state, next)
    {
      next := state;
      RotatedBy(old(history), history);
      if !retryable {
        RejectSettles(state);
        next := Reject(state).value;
        if next != state {
          AllowRejected(history, state, entropy);
          var saved := Save(next, Rejected);
          RotatedBy(old(history), history);
          if saved.Failure? {
            return Failure(saved.error), next;
          }
        }
      }
      r := Failure(Api(retryable));
      hide Begun, Repeats, Grants, Allowed, Supply, Lawful, Reject, RecoveryReference;
    }

    /// A refused cancellation restores the request it had displaced.
    method RestoreDisplaced(state: Record) returns (r: Result<(), Fault>)
      requires Valid() && cell == Some(state) && Answered(history, state) && history.event.reply.Accepted?
      requires state.pending.value.target.BrowserCancel?
      requires Json.At(history.event.reply.data, Json.Canceled) != Json.Bool(true)
      modifies this
      ensures Spends(old(history), history, 0, 0)
      ensures Valid() && Continuous(old(history), history)
      ensures r.Failure? && (StoreFault(r.error) || r.error.LoginAlreadyApproved?)
      ensures r.error.LoginAlreadyApproved? ==> cell == Some(state.(pending := state.pending.value.superseded))
    {
      var next := state.(pending := state.pending.value.superseded);
      AllowCancelRefused(history, state, next, entropy);
      var _ :- Save(next, CancelRefused);
      r := Failure(LoginAlreadyApproved);
      hide Begun, Repeats, Grants, Allowed, Supply, LawfulEvent;
    }

    /// During a logout a confirmed cancellation leaves evidence before anything is dropped.
    method ConfirmCancelled(state: Record, data: Json.Value) returns (r: Result<(), Fault>, next: Record)
      requires Valid() && cell == Some(state) && AnsweredWith(history, state, data)
      requires state.pending.value.target.BrowserCancel? && Json.At(data, Json.Canceled) == Json.Bool(true)
      modifies this
      ensures Spends(old(history), history, 0, 0)
      ensures Valid() && Continuous(old(history), history)
      ensures r.Success? ==> cell == Some(next) && Supported(history, next, Adopted(data))
      ensures r.Failure? ==> StoreFault(r.error)
      ensures next == state.(revocation := next.revocation)
      ensures if state.logoutPending
              then next.revocation.Some? && next.revocation.value.kind.CancelledInBrowser?
                   && next.revocation.value.confirmedAt > 0
                   && next.revocation.value.identity == CredentialIdentity(state)
              else next == state
    {
      next := state;
      r := Success(());
      if state.logoutPending {
        var at := Now();
        next := state.(revocation := Some(Evidence(CredentialIdentity(state), CancelledInBrowser, at)));
        AllowCancelConfirmed(history, state, at, next, entropy);
        r := Save(next, CancelConfirmed(at));
      }
      if r.Success? {
        AdoptableCancel(history, next, data);
      }
      hide Begun, Repeats, Grants, Allowed, Supply, LawfulEvent, CredentialIdentity, Supported;
    }

    /// The answer to a cancellation.
    method Cancelled(state: Record, data: Json.Value) returns (r: Result<(), Fault>, next: Record)
      requires Valid() && cell == Some(state) && AnsweredWith(history, state, data)
      requires state.pending.value.target.BrowserCancel?
      modifies this
      ensures Spends(old(history), history, 0, 0)
      ensures Valid() && Continuous(old(history), history)
      ensures r.Failure? ==> StoreFault(r.error) || r.error.InvalidResponse? || r.error.LoginAlreadyApproved?
      ensures Sent(r, state, next, history, cell)
    {
      next := state;
      if Json.At(data, Json.Canceled) != Json.Bool(true) {
        r := RestoreDisplaced(state);
        next := state.(pending := state.pending.value.superseded);
        return;
      }
      r, next := ConfirmCancelled(state, data);
      if r.Failure? {
        return;
      }
      CancelSettles(next, data);
      AdoptRecords(next, data);
      ConfirmKeepsReference(state, next);
      r, next := Settle(next, data);
      hide Begun, Repeats, Grants, Supply, LawfulEvent, Adopt, CredentialIdentity, RecoveryReference, ResultsRecorded,
        Supported;
    }

    /// The device credential that an enrollment is signed with. An enrollment
    /// that was never sent is forgotten when the device has expired, so that the
    /// next selection can refresh the device first.
    method EnrollmentBearer(state: Record, recovery: bool, time: Instant) returns (r: Result<Option<Bearer>, Fault>)
      requires Valid() && cell == Some(state) && state.pending.Some?
      requires history.Then? && history.event.Saved? && (!recovery ==> Installs(history.event.step))
      modifies this
      ensures Spends(old(history), history, 0, 0)
      ensures Valid() && Continuous(old(history), history)
      ensures r.Success? ==> history == old(history) && cell == old(cell)
      ensures r.Success? ==> (r.value.Some? <==> state.pending.value.target.Enroll? && state.device.Some?)
      ensures r.Success? && r.value.Some? ==>
        r.value.value.token == state.device.value.access && r.value.value.subject == state.device.value.subject
      ensures r.Failure? ==> state.pending.value.target.Enroll?
      ensures r.Success? && r.value.Some? ==> state.device.value.UsableAt(time)
      ensures r == Failure(AuthExpired) ==> state.device.Some? && !state.device.value.UsableAt(time)
      ensures r.Failure? ==> StoreFault(r.error) || r.error.AuthRequired? || r.error.AuthExpired?
      // Only an enrollment that was never sent is forgotten, and then it is gone.
      ensures r == Failure(AuthExpired) && !recovery ==> cell == Some(state.(pending := None))
      ensures r.Failure? && recovery ==> history == old(history) && cell == old(cell)
    {
      if !state.pending.value.target.Enroll? {
        return Success(None);
      }
      if state.device.None? {
        return Failure(AuthRequired);
      }
      if state.device.value.UsableAt(time) {
        return Success(Some(BearerOf(state.device.value)));
      }
      if !recovery {
        var next := state.(pending := None);
        AllowDropped(history, state, next, entropy);
        var _ :- Save(next, EnrollDropped);
        assert Continuous(old(history), history);
      }
      r := Failure(AuthExpired);
      hide Begun, Repeats, Grants, Allowed, Supply, LawfulEvent;
    }

    /// Replaces an answered exchange by the bootstrap it grants, under the same reference.
    method Exchanged(state: Record, data: Json.Value) returns (r: Result<(), Fault>, next: Record)
      requires Valid() && cell == Some(state) && AnsweredWith(history, state, data)
      requires state.pending.value.target.BrowserExchange?
      modifies this
      ensures Spends(old(history), history, 0, 0)
      ensures Valid() && Continuous(old(history), history)
      ensures r.Success? ==> cell == Some(next) && history.Then? && history.event.Saved? && history.event.step.Chained?
      ensures r.Success? ==> Retried(state, next) && next.pending.value.target.Bootstrap?
      ensures r.Success? ==>
        RedeemsGrant(state, data, next.pending.value) && next.pending.value.startedAt == history.event.step.at
      ensures r.Success? ==> RecoveryReference(next) == RecoveryReference(state)
      ensures r.Failure? ==> StoreFault(r.error) || r.error.InvalidResponse?
    {
      next := state;
      var grant := Json.Field(data, Json.BootstrapGrant);
      if grant.None? {
        return Failure(InvalidResponse), next;
      }
      var nonce := RandomValue();
      var at := Now();
      next := state.(pending := Some(BootstrapRequest(state, state.pending.value, grant.value, nonce, at)));
      AllowChained(history, state, grant.value, nonce, at, next, entropy);
      ChainedReference(state, grant.value, nonce, at);
      r := Save(next, Chained(grant.value, nonce, at));
      assert Continuous(old(history), history);
      hide Begun, Repeats, Grants, Allowed, Supply, LawfulEvent, RecoveryReference, PendingGeneration;
    }

    /// Uses an answer that ends the request: everything but an accepted exchange.
    method Conclude(state: Record, reply: Reply) returns (r: Result<(), Fault>, next: Record)
      requires Valid() && cell == Some(state) && Answered(history, state)
      requires history.event.reply == reply && !reply.Lost?
      requires state.pending.value.target.BrowserExchange? ==> reply.Refused?
      modifies this
      ensures Spends(old(history), history, 0, 0)
      ensures Valid() && Continuous(old(history), history)
      ensures Sent(r, state, next, history, cell)
      ensures r == Failure(Api(true)) ==> next == state
      ensures r.Failure? ==> !OwnerCheckFault(r.error)
      ensures RotationTarget(state.pending.value.target) ==> RotationOnly(old(history), history)
    {
      if reply.Refused? {
        r, next := Refuse(state, reply.retryable);
      } else if state.pending.value.target.BrowserCancel? {
        r, next := Cancelled(state, reply.data);
      } else {
        r, next := SettleRequest(state, reply.data);
      }
      hide Begun, Repeats, Grants, Allowed, Supply, Adopt, Reject, RecoveryReference, Completed, LawfulEvent,
        RejectionsRecorded, ResultsRecorded, Sent, StoresReply, LeftAsItWas, Continuous, RotationOnly;
    }

    /// Chains the bootstrap to an answered exchange, and completes it instead.
    method Bootstrapped(state: Record, data: Json.Value) returns (r: Result<(), Fault>, next: Record)
      requires Valid() && cell == Some(state) && AnsweredWith(history, state, data)
      requires state.pending.value.target.BrowserExchange?
      modifies this
      ensures Spends(old(history), history, 0, 0)
      ensures Valid() && Ran(old(history), history)
      ensures Sent(r, state, next, history, cell)
      ensures r.Success? || r.error.Api? ==> Continuous(old(history), history)
      ensures r == Failure(Api(true)) ==> Retried(state, next) && RecoveryReference(next) == RecoveryReference(state)
      ensures r.Failure? && OwnerCheckFault(r.error) ==> history.Then? && history.event.Overwritten?
      decreases 1
    {
      r, next := Exchanged(state, data);
      if r.Success? {
        ghost var chained := history;
        ghost var bootstrap := next;
        r, next := Transmit(next, false);
        Follow(old(history), chained, history);
        ChainSent(state, bootstrap, r, next, history, cell);
      }
      hide Begun, Repeats, Grants, Supply, Lawful, RecoveryReference, Continuous, RotationOnly, RejectionsRecorded,
        Completed, ResultsRecorded, Ran;
    }

    /// Sends the stored request and adopts its answer.
    method Transmit(state: Record, recovery: bool) returns (r: Result<(), Fault>, next: Record)
      requires Valid() && cell == Some(state) && state.pending.Some?
      requires history.Then? && history.event.Saved?
      requires if recovery then history.event.step.RecoveryMarked? else Installs(history.event.step)
      modifies this
      ensures Spends(old(history), history, 0, 0)
      ensures Valid() && Ran(old(history), history)
      ensures Sent(r, state, next, history, cell)
      ensures r.Success? || r.error.Api? ==> Continuous(old(history), history)
      ensures r == Failure(Api(true)) ==> Retried(state, next) && RecoveryReference(next) == RecoveryReference(state)
      ensures r.Failure? && OwnerCheckFault(r.error) ==> history.Then? && history.event.Overwritten?
      ensures RotationTarget(state.pending.value.target) ==> RotationOnly(old(history), history)
      decreases if state.pending.value.target.BrowserExchange? then 2 else 0
    {
      next := state;
      var time := Now();
      var bearer := EnrollmentBearer(state, recovery, time);
      if bearer.Failure? {
        SentInVain(bearer.error, state, next, history, cell);
        return Failure(bearer.error), next;
      }
      var replied := Dispatch(state, recovery, bearer.value);
      if replied.Failure? {
        SentInVain(replied.error, state, next, history, cell);
        return Failure(replied.error), next;
      }
      var reply := replied.value;
      ghost var sent := history;
      if state.pending.value.target.BrowserExchange? && reply.Accepted? {
        r, next := Bootstrapped(state, reply.data);
      } else {
        r, next := Conclude(state, reply);
      }
      Follow(old(history), sent, history);
      hide Begun, Repeats, Grants, Allowed, Supply, Lawful, RecoveryReference, Continuous, RotationOnly,
        RejectionsRecorded, Completed, Retried, ResultsRecorded, RefusedCancel, StoresReply, LeftAsItWas, Sent;
    }

    /// Repeats the stored request with the recovery flag, after marking it.
    method Recover(state: Record) returns (r: Result<(), Fault>, next: Record)
      requires Valid() && cell == Some(state)
      modifies this
      ensures Spends(old(history), history, 0, 1)
      ensures Valid() && Ran(old(history), history)
      ensures state.pending.None? ==> r == Failure(AuthRequired) && history == old(history)
      ensures state.pending.Some? ==> Sent(r, state, next, history, cell)
      ensures r.Success? || r.error.Api? ==> state.pending.Some? && Continuous(old(history), history)
      ensures r.Success? || r.error.Api? ==> Repeats(history) == Repeats(old(history)) + 1
      ensures r.Failure? && OwnerCheckFault(r.error) ==> history.Then? && history.event.Overwritten?
      ensures state.pending.Some? && RotationTarget(state.pending.value.target) ==> RotationOnly(old(history), history)
    {
      next := state;
      if state.pending.None? {
        return Failure(AuthRequired), next;
      }
      next := state.(pending := Some(state.pending.value.(recoveryUsed := true)));
      AllowMarked(history, state, next, entropy);
      var _ :- Save(next, RecoveryMarked);
      ghost var markedAt := history;
      ghost var marked := next;
      r, next := Transmit(next, true);
      SameRepeats(markedAt, history);
      Follow(old(history), markedAt, history);
      MarkedSent(state, marked, r, next, history, cell);
      hide Begun, Grants, Allowed, Supply, LawfulEvent, RecoveryReference, Sent, Retried, Ran;
    }

    /// Writes a new request ahead of sending it.
    method Journal(state: Record, target: Target, body: Body) returns (r: Result<(), Fault>, next: Record)
      requires Valid() && cell == Some(state) && FitsRecord(state, target, body) && state.pending.None?
      requires ProofNonce(body).Some? ==> Supply(history) <= ProofNonce(body).value < entropy
      modifies this
      ensures Spends(old(history), history, 1, 0) && Repeats(history) == Repeats(old(history))
      ensures Valid() && Continuous(old(history), history)
      ensures next.pending.Some? && next == state.(revocation := None, pending := next.pending)
      ensures next.pending.value.target == target && !next.pending.value.recoveryUsed
      ensures next.pending.value.body == body && next.pending.value.superseded.None?
      ensures r.Success? ==> cell == Some(next) && history.Then? && history.event.Saved? && history.event.step.Began?
      ensures r.Failure? ==> StoreFault(r.error)
      ensures history == old(history) || history == Then(old(history), Saved(Began(next.pending.value), next))
      ensures RotationTarget(target) ==> RotationOnly(old(history), history)
    {
      var generation := RandomValue();
      var at := Now();
      var p := Pending(target, RouteOf(target), body, Some(Random(generation)), at, false, None);
      next := state.(revocation := None, pending := Some(p));
      AllowBegun(history, state, p, next, entropy);
      r := Save(next, Began(p));
      hide Begun, Repeats, Grants, Allowed, Supply, LawfulEvent, FitsRecord;
    }

    /// Recovers what an ambiguous first send of `first` has left.
    method Retry(ghost first: Record, state: Record) returns (r: Result<(), Fault>, next: Record)
      requires Valid() && cell == Some(state) && Retried(first, state)
      requires first.pending.Some? && first.pending.value.target != Bootstrap
      requires RecoveryReference(state) == RecoveryReference(first)
      modifies this
      ensures Spends(old(history), history, 0, 1)
      ensures Valid() && Ran(old(history), history)
      ensures Sent(r, first, next, history, cell)
      ensures r.Success? || r.error.Api? ==> Continuous(old(history), history)
      ensures r.Success? || r.error.Api? ==> Repeats(history) == Repeats(old(history)) + 1
      ensures r.Failure? && OwnerCheckFault(r.error) ==> history.Then? && history.event.Overwritten?
      ensures RotationTarget(first.pending.value.target) ==> RotationOnly(old(history), history)
    {
      r, next := Recover(state);
      RetrySent(first, state, r, next, history, cell);
      hide Begun, Repeats, Grants, Supply, Lawful, RecoveryReference, RejectionsRecorded, Completed, ResultsRecorded,
        Continuous, RotationOnly, Ran, Sent;
    }

    /// Sends a request for the first time, and once more if the answer is ambiguous.
    method SendOrRetry(state: Record) returns (r: Result<(), Fault>, next: Record)
      requires Valid() && cell == Some(state) && state.pending.Some? && state.pending.value.target != Bootstrap
      requires history.Then? && history.event.Saved? && Installs(history.event.step)
      modifies this
      ensures Spends(old(history), history, 0, 1)
      ensures Valid() && Ran(old(history), history)
      ensures Sent(r, state, next, history, cell)
      ensures r.Success? || r.error.Api? ==> Continuous(old(history), history)
      ensures r == Failure(Api(true)) ==> Repeats(history) == Repeats(old(history)) + 1
      ensures r.Failure? && OwnerCheckFault(r.error) ==> history.Then? && history.event.Overwritten?
      ensures RotationTarget(state.pending.value.target) ==> RotationOnly(old(history), history)
    {
      r, next := Transmit(state, false);
      if r == Failure(Api(true)) {
        ghost var retriedAt := history;
        SameRepeats(old(history), history);
        r, next := Retry(state, next);
        Follow(old(history), retriedAt, history);
      }
      hide Begun, Repeats, Grants, Supply, Lawful, RecoveryReference, RejectionsRecorded, Completed, ResultsRecorded,
        Continuous, RotationOnly, Retried;
    }

    /// Journals a new request, sends it, and retries it once if the answer is
    /// ambiguous.
    method Begin(state: Record, target: Target, body: Body) returns (r: Result<(), Fault>, next: Record)
      requires Valid() && cell == Some(state) && FitsRecord(state, target, body)
      requires ProofNonce(body).Some? ==> Supply(history) <= ProofNonce(body).value < entropy
      modifies this
      ensures Spends(old(history), history, 1, 1)
      ensures Valid() && Ran(old(history), history)
      ensures r.Success? ==> Continuous(old(history), history) && cell == Some(next) && state.pending.None?
      ensures r.Success? ==> Completed(state.(revocation := None), target, next)
      ensures r.Success? ==> history.Then? && history.event.Saved? && history.event.step.Adopted?
      ensures target.BrowserExchange? && r.Success? ==>
        RecoveryReference(state).Some? && ResultsRecorded(RecoveryReference(state).value, state, next)
      ensures target.BrowserExchange? && r == Failure(Api(false)) ==>
        && cell == Some(next) && RecoveryReference(state).Some?
        && RejectionsRecorded(RecoveryReference(state).value, state, next)
      ensures r.Failure? && r.error.Api? ==> Continuous(old(history), history)
      // An ambiguous answer is reported only after the repetition was ambiguous too.
      ensures r == Failure(Api(true)) ==> Repeats(history) == Repeats(old(history)) + 1
      ensures r.Failure? ==> SendFault(r.error) || (r.error.RecoveryPending? && state.pending.Some?)
      ensures r.Failure? && OwnerCheckFault(r.error) ==> history.Then? && history.event.Overwritten?
      ensures r.Success? ==> StoresReply(target, next, history.event.step.data)
      ensures OnceAt(old(history), history, target) && OnceWith(old(history), history, body)
      ensures state.pending.Some? ==> r == Failure(RecoveryPending) && history == old(history)
      ensures RotationTarget(target) ==> RotationOnly(old(history), history)
    {
      next := state;
      if state.pending.Some? {
        return Failure(RecoveryPending), next;
      }
      r, next := Journal(state, target, body);
      ghost var begunAt := history;
      JournaledOnly(old(history), begunAt, begunAt, target, body);
      if r.Failure? {
        return;
      }
      ghost var begun := next;
      r, next := SendOrRetry(next);
      BegunSent(state, begun, body, r, next, history, cell);
      Follow(old(history), begunAt, history);
      JournaledOnly(old(history), begunAt, history, target, body);
      hide StoresReply, LeftAsItWas, OnceWith, Begun, Repeats, Grants, Allowed, Supply, Lawful, RecoveryReference,
        RejectionsRecorded, Completed,
        FitsRecord, ResultsRecorded, BrowserGeneration, Continuous, RotationOnly, Ran, OnceAt, Sent;
    }

    // ---- Rotation ----------------------------------------------------------

    /// `refresh_child`: one rotation of an enrolled organization's token.
    method RefreshChild(state: Record, org: string) returns (r: Result<(), Fault>, next: Record)
      requires Valid() && cell == Some(state) && !state.logoutPending
      modifies this
      ensures Spends(old(history), history, 1, 1)
      ensures Valid() && Ran(old(history), history) && RotationOnly(old(history), history)
      ensures r.Success? ==> Continuous(old(history), history) && cell == Some(next) && org in state.children
      ensures r.Success? ==> Completed(state.(revocation := None), ChildRefresh(org), next)
      ensures OnceAt(old(history), history, ChildRefresh(org))
      ensures org in state.children && r.Failure? && OwnerCheckFault(r.error) ==>
        history.Then? && history.event.Overwritten?
    {
      next := state;
      if org !in state.children {
        return Failure(NotEnrolled), next;
      }
      var nonce := RandomValue();
      var refresh := state.children[org].refresh;
      var body := RefreshBody(refresh, Proof(state.privateKey, ProveRefresh, refresh, nonce));
      r, next := Begin(state, ChildRefresh(org), body);
      hide Begun, Repeats, Grants, Supply, Lawful, Completed;
    }

    /// Recovers the pending request, if there is one.
    method RecoverPending(state: Record) returns (r: Result<(), Fault>, next: Record)
      requires Valid() && cell == Some(state)
      modifies this
      ensures Spends(old(history), history, 0, 1)
      ensures Valid() && Ran(old(history), history)
      ensures state.pending.None? ==> history == old(history) && r == Success(()) && next == state
      ensures r.Success? ==> Continuous(old(history), history) && cell == Some(next)
      ensures r.Success? ==> next.pending.None? && next.logoutPending == state.logoutPending
      ensures r.Success? ==> next.upgrades == state.upgrades && state.children.Keys <= next.children.Keys
      ensures r.Success? ==> next.profiles == state.profiles && next.active == state.active
    {
      r, next := Success(()), state;
      if state.pending.Some? {
        r, next := Recover(state);
      }
      hide Begun, Repeats, Grants, Supply, Lawful, ResultsRecorded, RejectionsRecorded, RecoveryReference;
    }

    /// `ensure_device`: a usable device token, recovering and rotating as needed.
    method EnsureDevice(state: Record, clock: seq<Instant>) returns (r: Result<(), Fault>, next: Record)
      requires Valid() && cell == Some(state) && |clock| == 2
      modifies this
      ensures Valid() && Ran(old(history), history)
      // It rotates an expired token only, and the token it leaves was usable when it was read last.
      ensures OnlyDue(old(history), history, clock, 0) && Spends(old(history), history, 2, 3)
      ensures r.Success? ==> next.device.Some? && exists time <- clock :: next.device.value.UsableAt(time)
      ensures r.Success? ==> Continuous(old(history), history) && cell == Some(next)
      ensures r.Success? ==> next.pending.None? && !next.logoutPending
      ensures r.Success? ==> next.upgrades == state.upgrades && state.children.Keys <= next.children.Keys
      ensures r.Success? ==> next.profiles == state.profiles && next.active == state.active
      ensures state.logoutPending ==> r == Failure(LogoutIsPending) && history == old(history)
    {
      next := state;
      if state.logoutPending {
        return Failure(LogoutIsPending), next;
      }
      r, next := RecoverPending(state);
      DueNothing(old(history), old(history), history, clock, 0);
      if r.Failure? {
        return;
      }
      for attempt := 0 to 2
        invariant Valid() && Continuous(old(history), history) && cell == Some(next)
        invariant next.pending.None? && !next.logoutPending && next.upgrades == state.upgrades
        invariant state.children.Keys <= next.children.Keys
        invariant next.profiles == state.profiles && next.active == state.active
        invariant OnlyDue(old(history), history, clock, 0) && Spends(old(history), history, attempt, attempt + 1)
      {
        if next.device.None? {
          return Failure(AuthRequired), next;
        }
        var token := next.device.value;
        if token.UsableAt(clock[attempt]) {
          return Success(()), next;
        }
        ExpiredIsDue(Some(next), DeviceRefresh, clock, attempt);
        ghost var before := history;
        var nonce := RandomValue();
        var body := RefreshBody(token.refresh, Proof(next.privateKey, ProveDeviceRefresh, token.refresh, nonce));
        r, next := Begin(next, DeviceRefresh, body);
        Follow(old(history), before, history);
        DueRotation(old(history), before, history, DeviceRefresh, clock, 0);
        if r.Failure? {
          return;
        }
      }
      r := Failure(AuthExpired);
      hide Due, Begun, Repeats, Grants, OnlyDue, OnceAt, Supply, Lawful, Continuous, RotationOnly, ResultsRecorded;
    }

    /// `credential`: a usable token of an enrolled organization, with no request left open.
    method Credential(org: string, clock: seq<Instant>) returns (r: Result<Bearer, Fault>)
      requires Valid() && |clock| == 2
      modifies this
      ensures Valid() && Ran(old(history), history)
      ensures OnlyDue(old(history), history, clock, 0) && Spends(old(history), history, 2, 3)
      ensures r.Success? ==>
        (&& cell.Some? && org in cell.value.children
         && r.value.token == cell.value.children[org].access && r.value.subject == cell.value.children[org].subject
         && (exists time <- clock :: cell.value.children[org].UsableAt(time))
         && !cell.value.logoutPending && cell.value.pending.None? && Continuous(old(history), history))
      ensures old(cell).Some? && old(cell).value.logoutPending ==> r.Failure? && history == old(history)
    {
      var state :- Required();
      if state.logoutPending {
        return Failure(LogoutIsPending);
      }
      var recovered, found := RecoverPending(state);
      DueNothing(old(history), old(history), history, clock, 0);
      var _ :- recovered;
      state := found;
      for attempt := 0 to 2
        invariant Valid() && Continuous(old(history), history) && cell == Some(state)
        invariant !state.logoutPending && state.pending.None?
        invariant OnlyDue(old(history), history, clock, 0) && Spends(old(history), history, attempt, attempt + 1)
      {
        if org !in state.children {
          return Failure(NotEnrolled);
        }
        var child := state.children[org];
        if child.UsableAt(clock[attempt]) {
          return Success(BearerOf(child));
        }
        ExpiredIsDue(Some(state), ChildRefresh(org), clock, attempt);
        ghost var before := history;
        var refreshed, next := RefreshChild(state, org);
        Follow(old(history), before, history);
        DueRotation(old(history), before, history, ChildRefresh(org), clock, 0);
        var _ :- refreshed;
        state := next;
      }
      r := Failure(AuthExpired);
      hide Due, Begun, Repeats, Grants, OnlyDue, OnceAt, Supply, Lawful, Continuous, RotationOnly, ResultsRecorded;
    }

    /// Recovers an interrupted rotation, if there is one, then checks the owner again.
    method RecoverRotation(state: Record, owner: Owner, ghost clock: seq<Instant>)
      returns (r: Result<(), Fault>, next: Record)
      requires Valid() && cell == Some(state) && OwnerFault(state, owner, true).None?
      modifies this
      ensures Valid() && RotatesDue(old(history), history, clock, 0, 1)
      ensures r.Success? ==> Continuous(old(history), history) && cell == Some(next)
      ensures r.Success? ==> SameOwners(state, next) && OwnerFault(next, owner, false).None?
      ensures r.Success? && state.revocation.None? ==> next.revocation.None?
      ensures state.revocation.None? && r.Failure? && OwnerCheckFault(r.error) ==>
        history.Then? && history.event.Overwritten?
    {
      if state.pending.None? {
        NothingPending(state, owner);
        RestRotatesDue(history, clock);
        return Success(()), state;
      }
      var rotated := state.pending.value.target;
      r, next := Recover(state);
      DueNothing(old(history), old(history), history, clock, 0);
      if r.Success? {
        var fault := OwnerFault(next, owner, false);
        if fault.Some? {
          r := Failure(fault.value);
        } else if !SameRotationOwner(rotated, state, next) {
          r := Failure(IdentityChanged);
        }
        if state.revocation.None? {
          RotationKeepsOwner(state, owner, next);
        }
      }
      hide Begun, Repeats, Grants, Supply, Lawful, RotationOnly, ResultsRecorded, CredentialIdentity;
    }

    /// Rotates the owner's token once, then checks the owner again.
    method RotateOwner(state: Record, owner: Owner, ghost clock: seq<Instant>)
      returns (r: Result<(), Fault>, next: Record)
      requires Due(Some(state), ChildRefresh(owner.org), clock)
      requires Valid() && cell == Some(state) && OwnerFault(state, owner, false).None?
      modifies this
      ensures Valid() && RotatesDue(old(history), history, clock, 1, 1)
      ensures r.Success? ==> Continuous(old(history), history) && cell == Some(next)
      ensures r.Success? ==> SameOwners(state, next) && OwnerFault(next, owner, false).None?
      ensures r.Success? && state.revocation.None? ==> next.revocation.None?
      ensures state.revocation.None? && r.Failure? && OwnerCheckFault(r.error) ==>
        history.Then? && history.event.Overwritten?
    {
      r, next := RefreshChild(state, owner.org);
      DueRotation(old(history), old(history), history, ChildRefresh(owner.org), clock, 0);
      if r.Success? {
        var fault := OwnerFault(next, owner, false);
        if fault.Some? {
          r := Failure(fault.value);
        }
        if state.revocation.None? {
          RotationKeepsOwner(state, owner, next);
        }
      }
      hide Begun, Repeats, Grants, Supply, Lawful, RotationOnly, ResultsRecorded, CredentialIdentity;
    }

    /// `owner_bound_credential`: only ever rotates what the caller already owns.
    method OwnerBoundCredential(org: string, expected: Option<Identity>, account: Option<string>,
                                clock: seq<Instant>)
      returns (r: Result<Granted, Fault>)
      requires Valid() && |clock| == 2
      modifies this
      // It rotates an expired token only, and serves one that was usable when it was read last.
      ensures Valid() && RotatesDue(old(history), history, clock, 2, 3)
      // A mismatch is found before anything is written or sent.
      ensures old(cell).Some? && Mismatched(old(cell).value, org, expected, account) ==>
        r.Failure? && history == old(history)
        && (StoreFault(r.error) || MismatchFault(old(cell).value, org, expected, account, r.error))
      // The expected owner is the one that is served, and nobody else changes.
      ensures r.Success? ==>
        (&& old(cell).Some? && Expected(old(cell).value, org, expected, account, r.value.owner)
         && Served(old(cell).value, r.value.owner, clock, cell, r.value))
      // Of anyone else no owner check can fail, not even after a recovery or rotation.
      ensures
        (&& r.Failure? && OwnerCheckFault(r.error) && old(cell).Some? && Sound(old(cell).value)
         && !Mismatched(old(cell).value, org, expected, account))
        ==> history.Then? && history.event.Overwritten?
    {
      RestRotatesDue(history, clock);
      MoreRotations(history, history, clock, 0, 0, 2, 3);
      var state :- Required();
      BoundOwnerIsExpected(state, org, expected, account);
      var owner :- BoundOwner(state, org, expected, account, true);
      if Sound(state) {
        OwnerHasNoEvidence(state, owner);
      }
      BoundOwnerIsValid(state, org, expected, account);
      r := ServeRecovered(state, owner, clock);
      hide RotatesDue, Supply, Lawful, SameOwners, Sound, OwnerFault, Served, BoundOwner, Mismatched, Expected,
        MismatchFault;
    }

    /// Finishes an interrupted rotation of the owner's record, then serves the owner.
    method ServeRecovered(state: Record, owner: Owner, clock: seq<Instant>) returns (r: Result<Granted, Fault>)
      requires Valid() && cell == Some(state) && OwnerFault(state, owner, true).None? && |clock| == 2
      modifies this
      ensures Valid() && RotatesDue(old(history), history, clock, 2, 3)
      ensures r.Success? ==> Served(state, owner, clock, cell, r.value)
      ensures state.revocation.None? && r.Failure? && OwnerCheckFault(r.error) ==>
        history.Then? && history.event.Overwritten?
    {
      var recovered, next := RecoverRotation(state, owner, clock);
      ghost var readyAt := history;
      RestRotatesDue(readyAt, clock);
      if recovered.Failure? {
        MoreRotations(old(history), history, clock, 0, 1, 2, 3);
        return Failure(recovered.error);
      }
      r := ServeOwner(next, owner, clock);
      RotatesOn(old(history), readyAt, history, clock, 0, 1, 2, 2);
      if r.Success? {
        ServedTransitive(state, next, owner, clock, cell, r.value);
      }
      hide RotatesDue, Supply, Lawful, Continuous, SameOwners, OwnerFault, Served;
    }

    /// Serves an owner whose record has no request open, rotating its token while it is expired.
    method ServeOwner(first: Record, owner: Owner, clock: seq<Instant>) returns (r: Result<Granted, Fault>)
      requires Valid() && cell == Some(first) && OwnerFault(first, owner, false).None? && |clock| == 2
      modifies this
      ensures Valid() && RotatesDue(old(history), history, clock, 2, 2)
      ensures r.Success? ==> Served(first, owner, clock, cell, r.value)
      ensures first.revocation.None? && r.Failure? && OwnerCheckFault(r.error) ==>
        history.Then? && history.event.Overwritten?
    {
      var state := first;
      RestRotatesDue(history, clock);
      for attempt := 0 to 2
        invariant Valid() && Continuous(old(history), history)
        invariant RotatesDue(old(history), history, clock, attempt, attempt)
        invariant cell == Some(state) && SameOwners(first, state) && OwnerFault(state, owner, false).None?
        invariant first.revocation.None? ==> state.revocation.None?
      {
        var child := state.children[owner.org];
        FaultlessOwner(state, owner);
        if child.UsableAt(clock[attempt]) {
          MoreRotations(old(history), history, clock, attempt, attempt, 2, 2);
          return Success(Granted(BearerOf(child), owner));
        }
        ExpiredIsDue(Some(state), ChildRefresh(owner.org), clock, attempt);
        ghost var before := history;
        ghost var rotated := state;
        var refreshed, next := RotateOwner(state, owner, clock);
        RotatesOn(old(history), before, history, clock, attempt, attempt, 1, 1);
        MoreRotations(old(history), history, clock, attempt + 1, attempt + 1, 2, 2);
        var _ :- refreshed;
        state := next;
        SameOwnersTransitive(first, rotated, state);
      }
      r := Failure(AuthExpired);
      hide Due, RotatesDue, Supply, Lawful, Continuous, CredentialIdentity, SameOwners;
    }

    // ---- Bound recovery ----------------------------------------------------

    /// `reconcile_state`: repeats or finishes the operation in the record, and starts none.
    method ReconcileState(state: Record) returns (r: Result<(), Fault>, next: Record)
      requires Valid() && cell == Some(state)
      modifies this
      ensures Valid() && Ran(old(history), history)
      ensures RecoveryReference(state).None? ==> r == Failure(RecoveryNotRequired) && history == old(history)
      ensures r.Success? ==> Continuous(old(history), history) && cell == Some(next)
      ensures r.Success? ==>
        RecoveryReference(state).Some? && ResultsRecorded(RecoveryReference(state).value, state, next)
      ensures r == Failure(Api(false)) ==> cell == Some(next)
      ensures r == Failure(Api(false)) ==>
        RecoveryReference(state).Some? && RejectionsRecorded(RecoveryReference(state).value, state, next)
      ensures r.Failure? && r.error.Api? ==> Continuous(old(history), history)
    {
      next := state;
      if state.pending.Some? {
        r, next := Recover(state);
      } else if state.login.Some? && state.login.value.receivedCode.Some? {
        var nonce := RandomValue();
        var body := ExchangeRequest(state.login.value, state.privateKey, nonce);
        r, next := Begin(state, BrowserExchange, body);
      } else {
        r := Failure(RecoveryNotRequired);
      }
      hide Supply, Lawful, Completed, ResultsRecorded, RejectionsRecorded, Continuous, PendingGeneration;
    }

    /// Binds a new key to the reference that the caller expects, before anything is sent.
    method BindKey(state: Record, key: string, expected: Option<Reference>) returns (r: Result<(), Fault>, next: Record)
      requires Valid() && cell == Some(state) && key !in state.recoveries
      modifies this
      ensures Valid() && Continuous(old(history), history) && NoSend(old(history), history)
      ensures r.Success? ==> expected.Some? && RecoveryReference(state) == expected && cell == Some(next)
      ensures r.Success? ==> RecoveryReference(next) == expected && key in next.recoveries
      ensures r.Success? ==> OpenFor(next.recoveries[key], expected.value)
      ensures r.Success? ==> next.recoveries[key].installationId == next.installationId
      ensures r.Failure? ==> StoreFault(r.error) || RecoveryReference(state) != expected || expected.None?
      ensures expected.Some? && expected.value.Foreign? && !IsReferenceText(expected.value.text) ==>
        r.Failure? && history == old(history)
      ensures r.Failure? ==> !r.error.Api?
    {
      next := state;
      if expected.None? {
        return Failure(BindingRequired), next;
      }
      if !expected.value.WellFormed() {
        return Failure(Fault.ReferenceMismatch), next;
      }
      next := BindReceipt(state, key, expected.value).value;
      BoundReceipt(state, key, expected.value);
      AllowBound(history, state, key, expected.value, entropy);
      var _ :- Save(next, ReceiptBound(key, expected.value));
      r := if RecoveryReference(state) == expected then Success(()) else Failure(Fault.ReferenceMismatch);
      hide Supply, Lawful, RecoveryReference, BindReceipt, Allowed;
    }

    /// `reconcile_bound`: a recovery that answers its key once and for all.
    method ReconcileBound(key: string, expected: Option<Reference>) returns (r: Answer)
      requires Valid()
      modifies this
      ensures Valid() && Ran(old(history), history)
      // A settled, mismatched or unbound key sends nothing.
      ensures !(old(cell).Some? && MayReconcile(old(cell).value, key, expected)) ==> NoSend(old(history), history)
      // A receipt that does not wait for this caller gives its answer without any effect.
      ensures
        (&& 16 <= |key| <= 256 && old(cell).Some? && key in old(cell).value.recoveries
         && !Waits(old(cell).value, key, expected))
        ==> (history == old(history)
             && ((r.Stopped? && StoreFault(r.fault)) || Replays(old(cell).value, key, expected, r)))
      // The binding is durable before anything is sent.
      ensures expected.Some? ==> SendsAreBound(old(history), history, key, expected.value)
      // No text but a reference is ever bound.
      ensures expected.Some? && expected.value.Foreign? && !IsReferenceText(expected.value.text) ==>
        history == old(history)
      // The answer is the one that the store holds, definite rejections included.
      ensures AnswerIsStored(cell, key, expected, r) && r != Stopped(Api(false))
      // A new result describes the record that is in the store with it.
      ensures r.Recovered? && history != old(history) ==>
        (&& cell.Some? && r.result.authenticated == cell.value.device.Some?
         && r.result.active == cell.value.active && r.result.reference == expected)
    {
      if !(16 <= |key| <= 256) {
        return Stopped(InvalidRequest);
      }
      var required := Required();
      if required.Failure? {
        return Stopped(required.error);
      }
      var state := required.value;
      if key in state.recoveries {
        var answer := ReceiptAnswer(state, key, expected);
        StoredAnswer(state, key, expected);
        if answer.Some? {
          return answer.value;
        }
      } else {
        var bound, next := BindKey(state, key, expected);
        if bound.Failure? {
          if expected.Some? {
            SendsAfterBinding(old(history), history, history, key, expected.value);
          }
          return Stopped(bound.error);
        }
        state := next;
      }
      ghost var boundAt := history;
      r := Reconcile(state, key, expected.value);
      Follow(old(history), boundAt, history);
      SendsAfterBinding(old(history), boundAt, history, key, expected.value);
      hide Supply, Lawful, RecoveryReference, Continuous, AnswersFrom;
    }

    /// Reconciles for a bound key and reads the answer from its receipt.
    method Reconcile(state: Record, key: string, reference: Reference) returns (r: Answer)
      requires Valid() && cell == Some(state) && RecoveryReference(state) == Some(reference)
      requires key in state.recoveries && OpenFor(state.recoveries[key], reference)
      requires state.recoveries[key].installationId == state.installationId
      modifies this
      ensures Valid() && Ran(old(history), history) && SendsAreBound(old(history), history, key, reference)
      ensures AnswerIsStored(cell, key, Some(reference), r) && r != Stopped(Api(false))
      ensures r.Recovered? ==> cell.Some? && r.result == OutcomeOf(cell.value, Some(reference))
    {
      var reconciled, next := ReconcileState(state);
      BindingLasts(old(history), history, key, reference);
      if reconciled.Success? || reconciled.error == Api(false) {
        InstallationIdStable(old(history), history);
      }
      if reconciled.Success? {
        r := Recovered(next.recoveries[key].result.value);
      } else if reconciled.error == Api(false) && key in next.recoveries && next.recoveries[key].rejection.Some? {
        r := Declined(next.recoveries[key].rejection.value);
      } else {
        r := Stopped(reconciled.error);
      }
      hide Supply, Lawful, RecoveryReference, Continuous, SendsAreBound;
    }

    // ---- Cancellation ------------------------------------------------------

    /// `cancel_login_locked`: takes back a browser sign-in, even one that may
    /// already be approved.
    method CancelLogin(state: Record, flow: FlowName, time: Instant) returns (r: Result<(), Fault>, next: Record)
      requires Valid() && cell == Some(state)
      modifies this
      ensures Valid() && Ran(old(history), history)
      // Only a started sign-in of this very flow, with nothing else going on, is cancelled.
      ensures !MayCancel(state, flow) ==>
        r.Failure? && RefusedFor(state, flow, r.error) && history == old(history)
      ensures MayCancel(state, flow) && r.Failure? ==> SendFault(r.error)
      ensures r.Success? ==> Continuous(old(history), history) && cell == Some(next)
      ensures r.Success? ==> Completed(state, BrowserCancel, next)
      ensures r == Failure(LoginFlowMismatch) <==>
        state.device.None? && state.login.Some? && FlowIdentity(state, state.login.value) != flow
      // A refused cancellation leaves the displaced operation exactly as it was.
      ensures r == Failure(LoginAlreadyApproved) && !CancelPending(state) ==> cell == old(cell)
    {
      next := state;
      var refusal := CancelRefusal(state, flow);
      RefusedExactly(state, flow);
      if refusal.Some? {
        return Failure(refusal.value), next;
      }
      if CancelPending(state) {
        r, next := Recover(state);
        return;
      }
      r, next := IntendCancel(state, time);
      if r.Failure? {
        return;
      }
      ghost var intendedAt := history;
      PendingCompletes(state, next);
      r, next := Transmit(next, false);
      Follow(old(history), intendedAt, history);
      hide Supply, Lawful, Completed, ResultsRecorded, RejectionsRecorded, RecoveryReference, CancelRefusal;
    }

    /// Persists the cancellation together with the operation it displaces.
    method IntendCancel(state: Record, time: Instant) returns (r: Result<(), Fault>, next: Record)
      requires Valid() && cell == Some(state) && state.login.Some? && state.login.value.browserState.Some?
      requires state.device.None? && state.login.value.transactionId.Some?
      requires state.pending.Some? ==>
        state.pending.value.target.BrowserExchange? || state.pending.value.target.Bootstrap?
      modifies this
      ensures Valid() && Continuous(old(history), history)
      ensures next.pending.Some? && next == state.(pending := next.pending)
      ensures next.pending.value.target.BrowserCancel? && next.pending.value.superseded == state.pending
      ensures Cancels(state, time, next.pending.value)
      ensures history == old(history) || history == Then(old(history), Saved(CancelIntended(next.pending.value), next))
      ensures r.Success? ==> cell == Some(next) && history.Then? && history.event.Saved? && Installs(history.event.step)
      ensures r.Failure? ==> StoreFault(r.error)
    {
      var nonce := RandomValue();
      var at := Now();
      var browserState := state.login.value.browserState.value;
      var p := CancelRequest(state, browserState, time, nonce, at);
      CancelRequestFits(state, browserState, time, nonce, at);
      next := state.(pending := Some(p));
      AllowIntent(history, state, p, next, entropy);
      r := Save(next, CancelIntended(p));
      hide Supply, Allowed, LawfulEvent, PendingSupply, CancelRequest, IsCancelIntent, Stamp, Proves;
    }

    // ---- Logout ------------------------------------------------------------

    /// Before anything is revoked: find the device, or take the sign-in back.
    method ReconcileAuthority(state: Record) returns (r: Result<(), Fault>, next: Record)
      requires Valid() && cell == Some(state) && state.logoutPending && !ValidRevocation(state) && state.device.None?
      modifies this
      ensures Valid() && Ran(old(history), history)
      ensures r.Success? ==> Continuous(old(history), history) && cell == Some(next) && next.logoutPending
      ensures r.Success? ==> next.installationId == state.installationId
      ensures r.Success? && next.device.Some? ==> !ValidRevocation(next)
      ensures r.Success? && next.device.None? ==> ValidRevocation(next) || NothingToRevoke(next)
      ensures r == Failure(LoginFlowMismatch) <==> LegacySignIn(state)
      ensures LegacySignIn(state) ==> history == old(history)
    {
      next := state;
      if BrowserStarted(state) {
        if state.children != map[] {
          return Failure(ReconciliationRequired), next;
        }
        var time := Now();
        r, next := CancelLogin(state, Flow(state.login.value.flowId), time);
        if r.Success? {
          CancelledLeavesNothing(state, next);
        }
      } else if state.pending.Some? || state.children != map[] {
        if state.pending.None? || !state.pending.value.target.Bootstrap? {
          return Failure(ReconciliationRequired), next;
        }
        r, next := Recover(state);
        if r.Failure? {
          r := Failure(if StoreFault(r.error) then r.error else ReconciliationRequired);
        } else {
          BootstrapHasNoEvidence(state, next);
        }
      } else {
        r := Success(());
      }
      hide Supply, Lawful, Completed, ResultsRecorded, RejectionsRecorded, RecoveryReference, ValidRevocation,
        RefusedCancel;
    }

    /// Revokes the device at the server and makes the confirmation durable while
    /// every credential is still in place.
    method RevokeDevice(state: Record) returns (r: Result<(), Fault>, next: Record)
      requires Valid() && cell == Some(state) && state.logoutPending && !ValidRevocation(state) && state.device.Some?
      modifies this
      ensures Valid() && Ran(old(history), history)
      ensures r.Success? ==> Continuous(old(history), history) && cell == Some(next)
      ensures r.Failure? ==> RevokeFault(r.error)
      ensures r.Failure? && (r.error.IdentityChanged? || r.error.AuthRequired?) ==>
        history.Then? && history.event.Overwritten?
      ensures r.Success? ==> next == state.(revocation := next.revocation) && ValidRevocation(next)
    {
      next := state;
      var _ :- Revalidate(state);
      var bearer := BearerOf(state.device.value);
      var reply := Ask(LogoutCall, Some(bearer));
      ghost var sent := Then(old(history), Requested(LogoutCall, Some(bearer), reply));
      assert Continuous(old(history), sent);
      if reply.Lost? {
        return Failure(Halted), next;
      } else if reply.Refused? {
        return Failure(Api(reply.retryable)), next;
      } else if Json.At(reply.data, Json.Revoked) != Json.Bool(true) {
        return Failure(LogoutFailed), next;
      }
      var _ :- Revalidate(state);
      var at := Now();
      next := state.(revocation := Some(Evidence(CredentialIdentity(state), DeviceLogout, at)));
      AllowRevoked(history, state, at, next, entropy);
      r := Save(next, DeviceRevoked(at));
      hide Supply, LawfulEvent, Allowed, CredentialIdentity;
    }

    /// Everything up to the clearing write: the evidence, if any is owed, is durable.
    method RevokeSession(record: Record) returns (r: Result<(), Fault>, next: Record)
      requires Valid() && cell == Some(record) && !ValidRevocation(record)
      modifies this
      ensures Valid() && Ran(old(history), history)
      ensures r.Success? ==> Continuous(old(history), history) && cell == Some(next)
      ensures r.Success? ==> next.installationId == record.installationId && ClearLogout(next).Some?
      ensures LegacySignIn(record) ==> r.Failure? && NoSend(old(history), history)
      ensures LegacySignIn(record) ==> StoreFault(r.error) || r.error == LoginFlowMismatch
      ensures r == Failure(LoginFlowMismatch) ==> LegacySignIn(record)
      ensures record.device.Some? && r.Failure? ==> RevokeFault(r.error)
    {
      next := record.(logoutPending := true);
      AllowLogoutIntent(history, record, entropy);
      var _ :- Save(next, LogoutIntended);
      ghost var intendedAt := history;
      if next.device.None? {
        r, next := ReconcileAuthority(next);
        Follow(old(history), intendedAt, history);
        if r.Failure? {
          return;
        }
      }
      r := Success(());
      if next.device.Some? {
        ghost var foundAt := history;
        r, next := RevokeDevice(next);
        Follow(old(history), foundAt, history);
      }
      hide Supply, Lawful, Allowed, CredentialIdentity, Continuous;
    }

    /// `cleanup_locked`: evidence first, then the clearing write, then the deletion.
    method Cleanup(expected: Option<Identity>, delete: bool) returns (r: Result<Logout, Fault>)
      requires Valid()
      modifies this
      ensures Valid()
      ensures Ran(old(history), history)
        || (delete && history.Then? && history.event.Deleted? && Continuous(old(history), history.past))
      // Another identity is refused before anything is written or sent.
      ensures expected.Some? && (old(cell).None? || CredentialIdentity(old(cell).value) != expected.value) ==>
        r.Failure? && history == old(history)
      // With evidence nothing is sent, and the same identity is confirmed again.
      ensures old(cell).Some? && ValidRevocation(old(cell).value) ==> NoSend(old(history), history)
      ensures old(cell).Some? && ValidRevocation(old(cell).value) && r.Success? ==>
        r.value == Logout(true, Some(CredentialIdentity(old(cell).value)), delete)
      // The same identity is admitted again: only the store can stand in its way.
      ensures old(cell).Some? && ValidRevocation(old(cell).value) && Admits(old(cell).value, expected) && r.Failure? ==>
        StoreFault(r.error)
      ensures old(cell).Some? && old(cell).value.device.Some? && Admits(old(cell).value, expected) && r.Failure? ==>
        RevokeFault(r.error)
      // What is reported is what the last record says, and nothing else is left of it.
      ensures r.Success? && old(cell).None? ==> r.value == Logout(false, None, false) && history == old(history)
      ensures r.Success? && old(cell).Some? ==>
        CleanedUp(old(cell).value.installationId, history, cell, r.value, delete)
      // A sign-in that predates flow identifiers, and nothing else, meets a flow
      // mismatch: once its transaction has started it cannot be logged out.
      ensures old(cell).Some? && LegacySignIn(old(cell).value) && !ValidRevocation(old(cell).value) ==>
        r.Failure? && NoSend(old(history), history)
      ensures
        (&& old(cell).Some? && LegacySignIn(old(cell).value) && !ValidRevocation(old(cell).value)
         && Admits(old(cell).value, expected))
        ==> StoreFault(r.error) || r.error == LoginFlowMismatch
      ensures r == Failure(LoginFlowMismatch) ==>
        (&& old(cell).Some? && LegacySignIn(old(cell).value) && !ValidRevocation(old(cell).value)
         && Admits(old(cell).value, expected))
    {
      var loaded :- Load();
      if loaded.None? {
        r := if expected.Some? then Failure(IdentityChanged) else Success(Logout(false, None, false));
        return;
      }
      var state := loaded.value;
      if !Admits(state, expected) {
        return Failure(IdentityChanged);
      }
      if !ValidRevocation(state) {
        var revoked, next := RevokeSession(state);
        var _ :- revoked;
        state := next;
      }
      ghost var revokedAt := history;
      r := Erase(state, delete);
      if history.Then? && history.event.Deleted? {
        ContinuousTransitive(old(history), revokedAt, history.past);
      } else {
        ContinuousTransitive(old(history), revokedAt, history);
      }
      hide RevokeFault, Supply, Lawful, CredentialIdentity, ValidRevocation, LegacySignIn, CleanedUp, ClearLogout;
    }

    /// Clears the record, then deletes it when asked to.
    method Erase(state: Record, delete: bool) returns (r: Result<Logout, Fault>)
      requires Valid() && cell == Some(state) && ClearLogout(state).Some?
      modifies this
      ensures Valid() && NoSend(old(history), history)
      ensures Continuous(old(history), history)
        || (delete && history.Then? && history.event.Deleted? && Continuous(old(history), history.past))
      ensures r.Failure? ==> StoreFault(r.error)
      ensures r.Success? ==> r.value == Logout(ValidRevocation(state), Some(CredentialIdentity(state)), delete)
      ensures r.Success? ==> CleanedUp(state.installationId, history, cell, r.value, delete)
    {
      var _ :- Revalidate(state);
      var cleared := LoggedOut(state);
      ClearingKeepsIdentity(state);
      AllowCleared(history, state, entropy);
      var _ :- Save(cleared, LogoutCleared);
      assert NoSend(old(history), history);
      if delete {
        var _ :- Revalidate(cleared);
        var _ :- Delete();
      }
      r := Success(Logout(ValidRevocation(state), Some(CredentialIdentity(cleared)), delete));
      hide Supply, LawfulEvent, CredentialIdentity, ValidRevocation, Allowed, LoggedOut;
    }

    /// The deletion lands and is confirmed, lands unnoticed, or does not land.
    method Delete() returns (r: Result<(), Fault>)
      requires Valid() && history.Then? && history.event.Saved? && history.event.step.LogoutCleared?
      modifies this
      ensures Valid()
      ensures history == old(history) || history == Then(old(history), Event.Deleted)
      ensures r.Success? ==> history == Then(old(history), Event.Deleted) && cell == None
      ensures r.Failure? ==> StoreFault(r.error)
    {
      if * {
        cell := None;
        history := Then(history, Event.Deleted);
        if * {
          r := Success(());
        } else {
          r := Failure(StoreOperationPending);
        }
      } else {
        r := Failure(StoreUnavailable);
      }
      hide Permitted, RecordSupply;
    }

    // ---- Sign-in -----------------------------------------------------------

    /// `installation_id`: the identity in the store, or a new one saved first.
    method InstallationId() returns (r: Result<string, Fault>)
      requires Valid()
      modifies this
      ensures Valid() && Continuous(old(history), history) && NoSend(old(history), history)
      ensures old(cell).Some? ==> cell == old(cell)
      ensures r.Success? ==> cell.Some? && cell.value.installationId == r.value
      ensures r.Failure? ==> StoreFault(r.error)
    {
      var loaded :- Load();
      if loaded.Some? {
        return Success(loaded.value.installationId);
      }
      var id: string, key: nat := *, *;
      var state := Fresh(id, key);
      assert Allowed(history, Initialized, state, entropy);
      var _ :- Save(state, Initialized);
      r := Success(id);
      hide Supply, LawfulEvent, Allowed;
    }

    /// `login`: opens a browser flow, or continues the one that the key already has.
    method Login(runnerName: string, key: string, time: Instant) returns (r: Result<SignIn, Fault>)
      requires Valid()
      modifies this
      ensures Valid() && Ran(old(history), history)
      ensures r == Success(Authenticated) ==> cell.Some? && cell.value.device.Some?
      ensures r.Success? && r.value.Waiting? ==> Awaiting(cell, r.value.login, key, runnerName)
      // The key keeps its flow, whatever became of the answers.
      ensures
        (&& old(cell).Some? && old(cell).value.pending.None? && old(cell).value.login.Some?
         && old(cell).value.login.value.key == key && old(cell).value.login.value.redirectUri.Some?
         && r.Success? && r.value.Waiting?)
        ==> SameFlow(old(cell).value.login.value, r.value.login)
      // One key names one runner.
      ensures
        (&& old(cell).Some? && old(cell).value.pending.None? && old(cell).value.device.None?
         && old(cell).value.login.Some? && old(cell).value.login.value.key == key
         && old(cell).value.login.value.runnerName != runnerName)
        ==> r.Failure? && history == old(history)
      ensures old(cell).Some? && old(cell).value.logoutPending ==> r.Failure? && history == old(history)
      ensures !(16 <= |key| <= 256) || (forall c <- runnerName :: c == ' ') ==>
        r == Failure(InvalidRequest) && history == old(history)
      // While an offered flow lives, its own key gets it back and any other key is refused.
      ensures
        (&& old(cell).Some? && old(cell).value.pending.None? && old(cell).value.device.None?
         && old(cell).value.login.Some? && old(cell).value.login.value.authorizationUrl.Some?
         && old(cell).value.login.value.expiresAt > time)
        ==> (&& history == old(history)
             && (r.Success? ==> r.value == Waiting(old(cell).value.login.value) && r.value.login.key == key))
    {
      if !(16 <= |key| <= 256) || Blank(runnerName) {
        return Failure(InvalidRequest);
      }
      var loaded :- Load();
      var id: string, privateKey: nat := *, *;
      var state := if loaded.Some? then loaded.value else Fresh(id, privateKey);
      if state.logoutPending {
        return Failure(LogoutIsPending);
      }
      if state.pending.Some? {
        var recovered, next := Recover(state);
        var _ :- recovered;
        state := next;
      }
      if state.device.Some? {
        return Success(Authenticated);
      }
      ghost var readyAt := history;
      r := SignInWith(state, runnerName, key, time);
      Follow(old(history), readyAt, history);
      hide Supply, Lawful, Completed, ResultsRecorded, RejectionsRecorded, Continuous, RotationOnly, SameFlow,
        Awaiting;
    }

    /// Continues or opens the flow of `key` on a record that has no other business.
    method SignInWith(state: Record, runnerName: string, key: string, time: Instant) returns (r: Result<SignIn, Fault>)
      requires Valid() && !state.logoutPending && state.pending.None? && state.device.None?
      requires cell == Some(state) || (cell.None? && state == Fresh(state.installationId, state.privateKey))
      modifies this
      ensures Valid() && Ran(old(history), history)
      ensures r.Success? ==> r.value.Waiting? && Awaiting(cell, r.value.login, key, runnerName)
      ensures state.login.Some? && state.login.value.key == key && state.login.value.redirectUri.Some? && r.Success? ==>
        SameFlow(state.login.value, r.value.login)
      ensures state.login.Some? && state.login.value.key == key && state.login.value.runnerName != runnerName ==>
        r.Failure? && history == old(history)
      ensures state.login.Some? && state.login.value.authorizationUrl.Some? && state.login.value.expiresAt > time ==>
        history == old(history) && (r.Success? ==> r.value == Waiting(state.login.value) && r.value.login.key == key)
    {
      var login := NewLogin(runnerName, key, time);
      if state.login.Some? {
        var existing := state.login.value;
        if existing.key == key && existing.runnerName != runnerName {
          return Failure(IdempotencyKeyReused);
        }
        if existing.key == key && existing.authorizationUrl.Some? && existing.expiresAt > time {
          return Success(Waiting(existing));
        }
        if existing.key != key && existing.authorizationUrl.Some? && existing.expiresAt > time {
          return Failure(LoginAlreadyPending);
        }
        if existing.key == key && existing.redirectUri.Some? {
          login := existing;
        }
      }
      if * {
        return Failure(CallbackUnavailable);
      }
      var started :- StartFlow(state, login);
      r := Success(Waiting(started));
      hide Supply, Lawful, Continuous, Ran;
    }

    method NewLogin(runnerName: string, key: string, time: Instant) returns (login: Credentials.Login)
      ensures login.key == key && login.runnerName == runnerName && login.flowId != ""
      ensures login.browserState.Some? && login.receivedCode.None? && login.transactionId.None?
      ensures login.authorizationUrl.None? && login.codeVerifier.Some? && login.redirectUri.Some?
      ensures login.expiresAt == if time + 600 <= MAX_U64 then time + 600 else MAX_U64
    {
      var flowId: string, redirectUri: string, browserState: string, codeVerifier: string := *, *, *, *;
      login := Credentials.Login(key, runnerName, if flowId == "" then "0" else flowId, SaturatingAdd(time, 600), None,
                                 None, Some(redirectUri), Some(browserState), Some(codeVerifier), None);
    }

    /// Saves the flow, announces it, and saves what the server offers for it.
    method StartFlow(base: Record, login: Credentials.Login) returns (r: Result<Credentials.Login, Fault>)
      requires Valid() && !base.logoutPending && base.pending.None? && base.device.None?
      requires cell == Some(base) || (cell.None? && base == Fresh(base.installationId, base.privateKey))
      modifies this
      ensures Valid() && Ran(old(history), history)
      ensures r.Success? ==> SameFlow(login, r.value) && Awaiting(cell, r.value, login.key, login.runnerName)
    {
      var state := base.(revocation := None, login := Some(login));
      AllowLogin(history, base, login, entropy);
      var _ :- Save(state, LoginStarted(base, login));
      ghost var startedAt := history;
      var asked := AskFor(state, StartCall(login.key), None);
      Follow(old(history), startedAt, history);
      var data :- asked;
      var offer := ParseOffer(data);
      if offer.None? {
        return Failure(InvalidResponse);
      }
      var offered := login.(authorizationUrl := Some(offer.value.url), transactionId := Some(offer.value.transactionId),
                            expiresAt := offer.value.expiresAt);
      var next := state.(login := Some(offered));
      AllowOffer(history, state, offer.value, next, entropy);
      var saved := Save(next, LoginOffered(offer.value.url, offer.value.transactionId, offer.value.expiresAt));
      if saved.Failure? {
        return Failure(saved.error);
      }
      r := Success(offered);
      hide Supply, LawfulEvent, Allowed, ParseOffer;
    }

    /// One request outside the journal: its answer is used only if the record did not change.
    method AskFor(state: Record, call: Call, bearer: Option<Bearer>) returns (r: Result<Json.Value, Fault>)
      requires Valid() && cell == Some(state) && MayRequest(history, call, bearer)
      modifies this
      ensures !call.GrantCall? ==> Spends(old(history), history, 0, 0)
      ensures Valid() && Ran(old(history), history)
      ensures r.Success? ==> Continuous(old(history), history) && cell == Some(state)
      ensures r.Success? ==> AnswersCall(history, call) && history.event.reply == Accepted(r.value)
      ensures r.Success? ==> history.event.bearer == bearer
      ensures call.SelfCall? ==> Inspects(old(history), history)
      ensures r.Failure? ==> r.error.Api? || StoreFault(r.error) || (history.Then? && history.event.Overwritten?)
      // Of a refused request the refusal is reported, whatever has become of the record.
      ensures !call.SelfCall? && r.Failure? && !r.error.Api? && !StoreFault(r.error) ==>
        history.past.Then? && history.past.event.Requested? && history.past.event.reply.Accepted?
    {
      var reply := Ask(call, bearer);
      ghost var sent := Then(old(history), Requested(call, bearer, reply));
      assert Continuous(old(history), sent);
      AskedOnly(old(history), sent);
      if reply.Lost? {
        return Failure(Halted);
      }
      // Only a self description is checked against the store before it is looked at.
      if reply.Refused? && !call.SelfCall? {
        return Failure(Api(reply.retryable));
      }
      var _ :- Revalidate(state);
      if reply.Refused? {
        return Failure(Api(reply.retryable));
      }
      r := Success(reply.data);
      hide Begun, Repeats, Grants, Supply, LawfulEvent, MayRequest;
    }

    /// `complete_browser_callback`: takes the answer of the browser once.
    method CompleteBrowserCallback(flowId: string, browserState: string, code: Option<string>, denied: bool,
                                   time: Instant)
      returns (r: Result<(), Fault>)
      requires Valid()
      modifies this
      ensures Valid() && Ran(old(history), history)
      // A callback of another flow, or a second code, has no effect.
      ensures
        (&& old(cell).Some?
         && (old(cell).value.login.None? || old(cell).value.login.value.flowId != flowId
             || old(cell).value.login.value.browserState != Some(browserState)
             || old(cell).value.login.value.expiresAt <= time))
        ==> r.Failure? && history == old(history)
      ensures !denied && (code.None? || !(32 <= |code.value| <= 256)) ==> r.Failure? && history == old(history)
      ensures old(cell).Some? && BrowserGeneration(old(cell).value).Some? && !denied ==>
        r.Failure? && history == old(history)
      ensures r.Success? && denied ==> old(cell).Some? && cell == Some(old(cell).value.(login := None))
      ensures r.Success? && !denied ==>
        (&& old(cell).Some? && old(cell).value.pending.None? && cell.Some? && cell.value.device.Some?
         && cell.value.login.None? && cell.value.pending.None? && cell.value.children == old(cell).value.children)
    {
      var state :- Required();
      if state.login.None? {
        return Failure(LoginRequired);
      }
      var login := state.login.value;
      if !CallbackMatches(state, flowId, browserState) || login.expiresAt <= time {
        return Failure(LoginFlowMismatch);
      }
      if denied {
        AllowDeclined(history, state, entropy);
        r := Save(state.(login := None), LoginDeclined);
        return;
      }
      if code.None? || !(32 <= |code.value| <= 256) {
        return Failure(InvalidRequest);
      }
      if login.receivedCode.Some? {
        return Failure(LoginCallbackReplay);
      }
      r := ExchangeCode(state, code.value);
      hide Supply, Lawful, Allowed, Continuous, RotationOnly;
    }

    /// Keeps the code, then exchanges it.
    method ExchangeCode(state: Record, code: string) returns (r: Result<(), Fault>)
      requires Valid() && cell == Some(state) && state.login.Some? && state.login.value.receivedCode.None?
      modifies this
      ensures Valid() && Ran(old(history), history)
      ensures r.Success? ==> state.pending.None? && cell.Some? && cell.value.device.Some?
      ensures r.Success? ==> cell.value.login.None? && cell.value.pending.None? && cell.value.children == state.children
    {
      var next := state.(login := Some(state.login.value.(receivedCode := Some(code))));
      AllowCode(history, state, code, entropy);
      var _ :- Save(next, CodeReceived(code));
      ghost var keptAt := history;
      var nonce := RandomValue();
      var body := ExchangeRequest(next.login.value, next.privateKey, nonce);
      r, next := Begin(next, BrowserExchange, body);
      Follow(old(history), keptAt, history);
      hide Supply, LawfulEvent, Allowed, Continuous, RotationOnly, ResultsRecorded, RejectionsRecorded,
        RecoveryReference;
    }

    // ---- Organizations -----------------------------------------------------

    /// `select`: enrolls the organization if needed and makes it the active one.
    method Select(org: string, key: string) returns (r: Result<(), Fault>)
      requires Valid()
      modifies this
      ensures Valid() && Ran(old(history), history)
      ensures r.Success? ==>
        (&& old(cell).Some? && cell.Some? && cell.value.device.Some? && cell.value.pending.None?
         && org in cell.value.children && old(cell).value.children.Keys <= cell.value.children.Keys
         && cell.value.upgrades == old(cell).value.upgrades && cell.value.active == Some(org)
         && MarksEnrolled(old(cell).value.profiles, org, cell.value.profiles))
      ensures EnrollsUnder(old(history), history, org, key)
      ensures
        (|| org == "" || !(16 <= |key| <= 256)
         || exists c <- org :: !('a' <= c <= 'z' || 'A' <= c <= 'Z' || '0' <= c <= '9' || c == '-' || c == '_'))
        ==> r == Failure(InvalidRequest) && history == old(history)
    {
      if !(16 <= |key| <= 256) || !OrganizationName(org) {
        return Failure(InvalidRequest);
      }
      var state :- Required();
      var clock := ReadTwice();
      var ready, next := EnsureDevice(state, clock);
      RotationsEnrollNobody(old(history), history, clock, org, key);
      var _ :- ready;
      if org !in next.children {
        ghost var readyAt := history;
        var enrolled;
        enrolled, next := Begin(next, Enroll(org), EnrollBody(key));
        EnrolledOnce(readyAt, history, Enroll(org), EnrollBody(key), org, key);
        EnrollsUnderTransitive(old(history), readyAt, history, org, key);
        Follow(old(history), readyAt, history);
        var _ :- enrolled;
      }
      AllowSelected(history, next, org, entropy);
      ghost var selectedAt := history;
      r := Save(SelectOrg(next, org).value, OrgSelected(org));
      Follow(old(history), selectedAt, history);
      hide OnlyDue, OnceAt, OnceWith, StoresReply, Supply, Lawful, Allowed, Continuous, RotationOnly, ResultsRecorded,
        RejectionsRecorded;
    }

    // ---- Scopes ------------------------------------------------------------

    /// One look at the credential's own description, with a usable token.
    method Inspect(state: Record, org: string, expected: Option<Binding>, time: Instant)
      returns (r: Result<Assessment, Fault>, next: Record)
      requires Valid() && cell == Some(state) && !state.logoutPending
      modifies this
      ensures Spends(old(history), history, 1, 1) && OnlyDue(old(history), history, [time], 0)
      ensures Valid() && Ran(old(history), history) && Inspects(old(history), history)
      ensures r.Success? ==> Continuous(old(history), history) && cell == Some(next)
      ensures r.Success? ==> Inspected(history, state, next, org, expected, r.value)
      ensures r.Success? && r.value.StaleToken? ==> AnsweredStale(history, org, expected)
    {
      next := state;
      if org !in state.children {
        return Failure(NotEnrolled), next;
      }
      if !state.children[org].UsableAt(time) {
        ExpiredIsDue(Some(state), ChildRefresh(org), [time], 0);
        var refreshed;
        refreshed, next := RefreshChild(state, org);
        InspectsThenRotates(old(history), old(history), history);
        DueRotation(old(history), old(history), history, ChildRefresh(org), [time], 0);
        if refreshed.Failure? {
          return Failure(refreshed.error), next;
        }
      }
      ghost var readyAt := history;
      var asked := AskSelf(next, org);
      Follow(old(history), readyAt, history);
      InspectsTransitive(old(history), readyAt, history);
      DueNothing(old(history), readyAt, history, [time], 0);
      if asked.Failure? {
        return Failure(asked.error), next;
      }
      var assessment := Assess(next, org, asked.value, expected);
      if assessment.VerifiedAs? {
        ExpectedBinding(next, org, asked.value, expected, assessment.binding);
      }
      r := Success(assessment);
      hide Due, Begun, Repeats, Grants, OnlyDue, OnceAt, Supply, Lawful, Continuous, RotationOnly, Inspects, Assess,
        ResultsRecorded, BearerOf;
    }

    method AskSelf(state: Record, org: string) returns (r: Result<Json.Value, Fault>)
      requires Valid() && cell == Some(state) && !state.logoutPending && org in state.children
      modifies this
      ensures Spends(old(history), history, 0, 0)
      ensures Valid() && Ran(old(history), history) && Inspects(old(history), history)
      ensures r.Success? ==> Continuous(old(history), history) && cell == Some(state)
      ensures r.Success? ==> AnswersCall(history, SelfCall(org)) && history.event.reply == Accepted(r.value)
      ensures r.Success? ==> history.event.bearer == Some(BearerOf(state.children[org]))
    {
      r := AskFor(state, SelfCall(org), Some(BearerOf(state.children[org])));
      hide Begun, Repeats, Grants, Supply, Lawful, BearerOf;
    }

    /// One rotation whatever the token's age, then another look.
    method RotateAndInspect(state: Record, org: string, expected: Option<Binding>, time: Instant)
      returns (r: Result<Assessment, Fault>, next: Record)
      requires Valid() && cell == Some(state) && !state.logoutPending && AnsweredStale(history, org, expected)
      modifies this
      ensures Spends(old(history), history, 2, 2) && RotatesForStale(old(history), history, org, expected, time)
      ensures Valid() && Ran(old(history), history)
      ensures r.Success? ==> Continuous(old(history), history) && cell == Some(next)
      ensures r.Success? ==> Inspected(history, state, next, org, expected, r.value)
    {
      var refreshed;
      refreshed, next := RefreshChild(state, org);
      RotatedForStale(old(history), history, org, expected, time);
      if refreshed.Failure? {
        return Failure(refreshed.error), next;
      }
      ghost var rotatedAt := history;
      ghost var rotated := next;
      r, next := Inspect(next, org, expected, time);
      LookedAfterRotation(old(history), rotatedAt, history, org, expected, time);
      if r.Success? {
        InspectedSince(history, state, rotated, next, org, expected, r.value);
      }
      Follow(old(history), rotatedAt, history);
      hide Begun, Repeats, Grants, OnlyDue, OnceAt, Supply, Lawful, Continuous, RotationOnly, Inspects,
        ResultsRecorded, Inspected, Ran, AnsweredStale, RotatesForStale;
    }

    /// `verified_scope_metadata`: at most one rotation because of a stale token.
    method VerifiedScopes(state: Record, org: string, expected: Option<Binding>, clock: seq<Instant>)
      returns (r: Result<Binding, Fault>, next: Record)
      requires |clock| == 2 && Valid() && cell == Some(state) && !state.logoutPending
      modifies this
      // Every rotation but one is of a stored token that was found expired, and that
      // one answers to a self description that found the token older than its grant.
      ensures LooksAgain(old(history), history, org, expected, clock)
      ensures Valid() && Ran(old(history), history) && Spends(old(history), history, 3, 3)
      ensures r.Success? ==> Continuous(old(history), history) && cell == Some(next)
      ensures r.Success? ==> next.upgrades == state.upgrades && SelfVerified(history, org, r.value)
      ensures r.Success? && expected.Some? ==> r.value.SameAttachment(expected.value)
      ensures r.Success? ==> r.value.org == org
    {
      var assessed;
      assessed, next := Inspect(state, org, expected, clock[0]);
      LookedOnce(old(history), history, org, expected, clock);
      if assessed.Success? && assessed.value.StaleToken? {
        InspectedKeeps(history, state, next, org, expected, assessed.value);
        ghost var staleAt := history;
        ghost var stale := next;
        assessed, next := RotateAndInspect(next, org, expected, clock[1]);
        Follow(old(history), staleAt, history);
        LookedTwice(old(history), staleAt, history, org, expected, clock);
        if assessed.Success? {
          InspectedSince(history, state, stale, next, org, expected, assessed.value);
        }
      }
      if assessed.Failure? {
        return Failure(assessed.error), next;
      }
      InspectedKeeps(history, state, next, org, expected, assessed.value);
      r := Verdict(assessed.value);
      hide Begun, Repeats, Grants, OnlyDue, OnceAt, Supply, Lawful, Continuous, RotationOnly, Inspects,
        ResultsRecorded, SelfVerified, Inspected, Ran, AnsweredStale, LooksAgain,
        RotatesForStale;
    }

    /// `scope_status`: reads the current authority, and asks for no grant.
    method ScopeStatus(org: string, clock: seq<Instant>) returns (r: Result<Binding, Fault>)
      requires Valid() && |clock| == 2
      modifies this
      // Every rotation but one is of a stored token that was found expired, and no grant is asked for.
      ensures OnlyDue(old(history), history, clock, 1) && Spends(old(history), history, 3, 4)
      ensures StaleOnly(old(history), history, org, None, clock)
      ensures Valid() && Ran(old(history), history)
      ensures r.Success? ==> SelfVerified(history, org, r.value) && r.value.org == org
      ensures old(cell).Some? && old(cell).value.pending.None? ==> Inspects(old(history), history)
      ensures |org| != 32 && |org| != 36 ==> r == Failure(InvalidRequest) && history == old(history)
      ensures old(cell).Some? && old(cell).value.logoutPending ==> r.Failure? && history == old(history)
    {
      if !IsUuid(org) {
        return Failure(InvalidRequest);
      }
      var state :- Required();
      if state.logoutPending {
        return Failure(LogoutIsPending);
      }
      var recovered, found := RecoverPending(state);
      DueNothing(old(history), old(history), history, clock, 0);
      MoreFree(old(history), history, clock, 0, 1);
      DueIsStaleOnly(old(history), history, org, None, clock);
      var _ :- recovered;
      state := found;
      ghost var readyAt := history;
      r, state := VerifiedScopes(state, org, None, clock);
      StaleOnlyTransitive(old(history), readyAt, history, org, None, clock);
      Follow(old(history), readyAt, history);
      OnlyDueAdd(old(history), readyAt, history, clock, 0, 1);
      hide Begun, Repeats, Grants, OnlyDue, Supply, Lawful, Continuous, RotationOnly, ResultsRecorded, SelfVerified,
        IsUuid, StaleOnly;
    }

    /// Finds the existing attachment and journals the upgrade before any grant is asked for.
    method Discover(state: Record, org: string, key: string, requested: seq<string>)
      returns (r: Result<Upgrade, Fault>, next: Record)
      requires Valid() && cell == Some(state) && (org, key) !in state.upgrades
      modifies this
      ensures Valid() && Ran(old(history), history)
      ensures r.Success? ==> Continuous(old(history), history) && cell == Some(next)
      ensures r.Success? ==> (org, key) in next.upgrades && next.upgrades[(org, key)] == r.value
      ensures r.Success? ==> r.value.phase.GrantPending? && r.value.requested == requested && !next.logoutPending
      ensures r.Success? ==> OwnUpgrade(next, org, r.value) && r.value.binding.org == org
    {
      var ready;
      var clock := ReadTwice();
      ready, next := EnsureDevice(state, clock);
      if ready.Failure? {
        return Failure(ready.error), next;
      }
      if org !in next.children {
        return Failure(NotEnrolled), next;
      }
      ghost var readyAt := history;
      var asked := AskFor(next, DiscoverCall(org, key), Some(BearerOf(next.device.value)));
      Follow(old(history), readyAt, history);
      if asked.Failure? {
        return Failure(asked.error), next;
      }
      var binding := DiscoveredBinding(next, org, asked.value);
      if binding.Failure? {
        return Failure(binding.error), next;
      }
      var upgrade := Upgrade(GrantPending, binding.value, requested);
      DiscoveryAttaches(next, org, asked.value, requested);
      ghost var askedAt := history;
      var saved;
      saved, next := SaveUpgraded(next, org, key, upgrade);
      Follow(old(history), askedAt, history);
      r := if saved.Success? then Success(upgrade) else Failure(saved.error);
      hide Supply, Lawful, Continuous, RotationOnly, ResultsRecorded, BearerOf;
    }

    method SaveUpgraded(state: Record, org: string, key: string, upgrade: Upgrade)
      returns (r: Result<(), Fault>, next: Record)
      requires Valid() && cell == Some(state) && SaveUpgrade(state, org, key, upgrade).Some?
      requires Supported(history, state, UpgradeSaved(org, key, upgrade))
      modifies this
      ensures Valid() && Continuous(old(history), history)
      ensures next == state.(upgrades := state.upgrades[(org, key) := upgrade])
      ensures r.Success? ==> cell == Some(next)
      ensures r.Success? ==> history == Then(old(history), Saved(UpgradeSaved(org, key, upgrade), next))
      ensures r.Failure? ==> StoreFault(r.error)
    {
      next := SaveUpgrade(state, org, key, upgrade).value;
      AllowUpgrade(history, state, org, key, upgrade, entropy);
      r := Save(next, UpgradeSaved(org, key, upgrade));
      hide Supply, LawfulEvent, Allowed, Supported;
    }

    /// Asks for the journaled grant and journals its answer.
    method RequestGrant(state: Record, org: string, key: string) returns (r: Result<Upgrade, Fault>, next: Record)
      requires Valid() && cell == Some(state) && (org, key) in state.upgrades && !state.logoutPending
      requires state.upgrades[(org, key)].phase.GrantPending? && OwnUpgrade(state, org, state.upgrades[(org, key)])
      modifies this
      ensures Valid() && Ran(old(history), history)
      ensures r.Success? ==> Continuous(old(history), history) && cell == Some(next) && !next.logoutPending
      ensures r.Success? ==> (org, key) in next.upgrades && next.upgrades[(org, key)] == r.value
      ensures r.Success? ==> GrantJournaled(history, org, key, r.value)
      ensures r.Success? ==> r.value.requested == state.upgrades[(org, key)].requested
      ensures r.Success? ==> r.value.binding.SameAttachment(state.upgrades[(org, key)].binding)
      ensures r.Success? ==>
        next.device.Some? && next.device.value.subject == r.value.binding.deviceId
    {
      var upgrade := state.upgrades[(org, key)];
      var ready;
      var clock := ReadTwice();
      ready, next := EnsureDevice(state, clock);
      if ready.Failure? {
        return Failure(ready.error), next;
      }
      if next.device.value.subject != upgrade.binding.deviceId {
        return Failure(IdentityChanged), next;
      }
      ghost var readyAt := history;
      var asked := AskFor(next, GrantCall(org, key), Some(BearerOf(next.device.value)));
      Follow(old(history), readyAt, history);
      if asked.Failure? {
        return Failure(if asked.error == Api(true) then NetworkAmbiguous else asked.error), next;
      }
      ghost var askedAt := history;
      r, next := JournalGrant(next, org, key, asked.value);
      Follow(old(history), askedAt, history);
      hide Supply, Lawful, Continuous, RotationOnly, ResultsRecorded, BearerOf, GrantJournaled;
    }

    /// Journals the verdict that a grant receipt reports.
    method JournalGrant(state: Record, org: string, key: string, data: Json.Value)
      returns (r: Result<Upgrade, Fault>, next: Record)
      requires Valid() && cell == Some(state) && (org, key) in state.upgrades
      requires state.device.Some? && org in state.children
      requires state.upgrades[(org, key)].phase.GrantPending? && AnswersCall(history, GrantCall(org, key))
      requires history.event.reply == Accepted(data)
      modifies this
      ensures Valid() && Continuous(old(history), history)
      ensures next == state.(upgrades := next.upgrades)
      ensures r.Success? ==> cell == Some(next) && (org, key) in next.upgrades && next.upgrades[(org, key)] == r.value
      ensures r.Success? ==> GrantJournaled(history, org, key, r.value)
      ensures r.Success? ==> r.value.requested == state.upgrades[(org, key)].requested
      ensures r.Success? ==> r.value.binding.SameAttachment(state.upgrades[(org, key)].binding)
    {
      next := state;
      var upgrade := state.upgrades[(org, key)];
      var granted := GrantedUpgrade(upgrade, org, data);
      if granted.Failure? {
        return Failure(granted.error), next;
      }
      GrantAnswer(upgrade, org, data);
      var saved;
      saved, next := SaveUpgraded(next, org, key, granted.value);
      r := if saved.Success? then Success(granted.value) else Failure(saved.error);
      hide Supply, Lawful, Continuous, GrantedUpgrade;
    }

    /// Journals a verified upgrade.
    method RecordVerdict(state: Record, org: string, key: string, binding: Binding) returns (r: Result<Upgrade, Fault>)
      requires Valid() && cell == Some(state) && SelfVerified(history, org, binding) && binding.org == org
      requires (org, key) in state.upgrades && state.upgrades[(org, key)].phase.RefreshPending?
      requires binding.SameAttachment(state.upgrades[(org, key)].binding)
      modifies this
      ensures Valid() && Continuous(old(history), history)
      ensures r.Success? ==> UpgradeSettled(cell, org, key, state.upgrades[(org, key)].requested, r.value)
      ensures r.Success? ==> r.value == state.upgrades[(org, key)].(phase := Verified, binding := binding)
      ensures r.Success? ==> history.Then? && history.past == old(history)
    {
      var settled := state.upgrades[(org, key)].(phase := Verified, binding := binding);
      MaySettle(history, state, org, key, settled);
      var saved, next := SaveUpgraded(state, org, key, settled);
      r := if saved.Success? then Success(settled) else Failure(saved.error);
      hide Supply, Lawful, SelfVerified, Supported, OwnUpgrade, SaveUpgrade;
    }

    /// Recovers an interrupted rotation, verifies the new authority, and settles the upgrade.
    method SettleUpgrade(state: Record, org: string, key: string) returns (r: Result<Upgrade, Fault>)
      requires Valid() && cell == Some(state) && !state.logoutPending
      requires (org, key) in state.upgrades && state.upgrades[(org, key)].phase.RefreshPending?
      modifies this
      ensures Valid() && Ran(old(history), history)
      ensures r.Success? ==> UpgradeSettled(cell, org, key, state.upgrades[(org, key)].requested, r.value)
      ensures r.Success? ==>
        r.value.phase.Verified? && forall scope <- r.value.requested :: scope in r.value.binding.scopes
      ensures r.Success? ==> r.value.binding.SameAttachment(state.upgrades[(org, key)].binding)
      ensures r.Success? ==> history.Then? && SelfVerified(history.past, org, r.value.binding)
    {
      var upgrade := state.upgrades[(org, key)];
      var recovered, next := RecoverPending(state);
      var _ :- recovered;
      ghost var readyAt := history;
      var verified;
      var clock := ReadTwice();
      verified, next := VerifiedScopes(next, org, Some(upgrade.binding), clock);
      Follow(old(history), readyAt, history);
      var binding :- verified;
      if !Covers(binding.scopes, upgrade.requested) {
        return Failure(ScopeVerificationRequired);
      }
      ghost var verifiedAt := history;
      r := RecordVerdict(next, org, key, binding);
      Follow(old(history), verifiedAt, history);
      hide Begun, Repeats, Grants, OnlyDue, Supply, Lawful, Continuous, RotationOnly, ResultsRecorded, SelfVerified,
        Inspects, Supported, UpgradeSettled, Ran;
    }

    /// `scope_upgrade`: an additive grant, asked for once and verified before it is settled.
    method ScopeUpgrade(org: string, requested: seq<string>, key: string) returns (r: Result<Upgrade, Fault>)
      requires Valid()
      modifies this
      ensures Valid() && Ran(old(history), history)
      ensures r.Success? ==> UpgradeSettled(cell, org, key, requested, r.value)
      // A new verdict rests on the last answer, and covers everything that was asked for.
      ensures r.Success? && r.value.phase.Verified? && history != old(history) ==>
        && (forall scope <- requested :: scope in r.value.binding.scopes)
        && history.Then? && SelfVerified(history.past, org, r.value.binding)
      // A new denial is what the server has just answered, for exactly this request.
      ensures r.Success? && r.value.phase.Denied? && history != old(history) ==>
        GrantJournaled(history, org, key, r.value)
      // Only the five persona scopes can be asked for, and only under well-formed names.
      ensures
        (|| requested == [] || (|org| != 32 && |org| != 36) || (|key| != 32 && |key| != 36)
         || (exists scope <- requested :: scope !in
              {"runner.personas.read", "runner.personas.chat", "runner.personas.memory.read",
               "runner.personas.memory.write", "runner.personas.manage"}))
        ==> r == Failure(InvalidRequest) && history == old(history)
      ensures old(cell).Some? && old(cell).value.logoutPending ==> r.Failure? && history == old(history)
      // A key keeps its request, its attachment and its first verdict.
      ensures old(cell).Some? && (org, key) in old(cell).value.upgrades ==>
        KeepsUpgrade(old(cell).value.upgrades[(org, key)], requested, r, history == old(history))
    {
      if !IsUuid(org) || !IsUuid(key) || requested == [] || exists scope <- requested :: !PersonaScope(scope) {
        return Failure(InvalidRequest);
      }
      var state :- Required();
      if state.logoutPending {
        return Failure(LogoutIsPending);
      }
      var upgrade;
      if (org, key) in state.upgrades {
        upgrade := state.upgrades[(org, key)];
        if upgrade.requested != requested || upgrade.binding.org != org {
          return Failure(IdempotencyKeyReused);
        }
        if upgrade.phase.Verified? || upgrade.phase.Denied? {
          r := if OwnUpgrade(state, org, upgrade) then Success(upgrade) else Failure(IdentityChanged);
          return;
        }
      } else {
        var discovered, next := Discover(state, org, key, requested);
        upgrade :- discovered;
        state := next;
      }
      if !OwnUpgrade(state, org, upgrade) {
        return Failure(IdentityChanged);
      }
      ghost var foundAt := history;
      r := ContinueUpgrade(state, org, key);
      Follow(old(history), foundAt, history);
      hide Supply, Lawful, Continuous, RotationOnly, ResultsRecorded, SelfVerified, Inspects, Supported,
        GrantJournaled;
    }

    /// The grant if it is still unanswered, then the verification.
    method ContinueUpgrade(state: Record, org: string, key: string) returns (r: Result<Upgrade, Fault>)
      requires Valid() && cell == Some(state) && !state.logoutPending && (org, key) in state.upgrades
      requires var u := state.upgrades[(org, key)];
        (u.phase.GrantPending? || u.phase.RefreshPending?) && OwnUpgrade(state, org, u)
      modifies this
      ensures Valid() && Ran(old(history), history)
      ensures var u := state.upgrades[(org, key)];
        r.Success? ==> UpgradeSettled(cell, org, key, u.requested, r.value) && r.value.binding.SameAttachment(u.binding)
      ensures r.Success? && r.value.phase.Denied? ==> GrantJournaled(history, org, key, r.value)
      ensures r.Success? && r.value.phase.Verified? ==>
        && (forall scope <- r.value.requested :: scope in r.value.binding.scopes)
        && history.Then? && SelfVerified(history.past, org, r.value.binding)
    {
      var next := state;
      if state.upgrades[(org, key)].phase.GrantPending? {
        var granted;
        granted, next := RequestGrant(state, org, key);
        var upgrade :- granted;
        if upgrade.phase.Denied? {
          return Success(upgrade);
        }
      }
      ghost var grantedAt := history;
      r := SettleUpgrade(next, org, key);
      Follow(old(history), grantedAt, history);
      hide Supply, Lawful, Continuous, RotationOnly, ResultsRecorded, SelfVerified, Inspects, Supported, GrantJournaled;
    }
  }
}
