// Properties of whole runs: statements about every lawful history, with crashes
// and lost answers at any point.

module AuthTheorems {
  import opened Basics
  import opened Credentials
  import opened AuthHistory
  import opened AuthInvariant
  import Json

  lemma {:induction false} PrefixLawful(p: History, h: History)
    requires Prefix(p, h) && Lawful(h)
    ensures Lawful(p)
    ensures Undisturbed(h) ==> Undisturbed(p)
  {
    if p != h {
      PrefixLawful(p, h.past);
    }
    hide LawfulEvent;
  }

  /// From `p` on, `h` never loses the record to a deletion or to another writer.
  predicate Continuous(p: History, h: History) {
    p == h || (h.Then? && !h.event.Deleted? && !h.event.Overwritten? && Continuous(p, h.past))
  }

  lemma {:induction false} ContinuousPrefix(p: History, h: History)
    requires Continuous(p, h)
    ensures Prefix(p, h)
  {
    if p != h {
      ContinuousPrefix(p, h.past);
    }
  }

  // ---- The installation identity -------------------------------------------

  /// Two reads of one installation agree, however many writes lie between them.
  lemma {:induction false} InstallationIdStable(p: History, h: History)
    requires Lawful(h) && Continuous(p, h) && Cell(p).Some?
    ensures Cell(h).Some? && Cell(h).value.installationId == Cell(p).value.installationId
    ensures Cell(h).value.privateKey == Cell(p).value.privateKey
  {
    if p != h {
      InstallationIdStable(p, h.past);
      if h.event.Saved? {
        StepKeepsInstallation(Cell(h.past).value, h.event.step);
      }
    }
    hide Next, Supported, MayRequest, MayTransmit;
  }

  lemma StepKeepsInstallation(r: Record, step: Step)
    requires Next(r, step).Some?
    ensures Next(r, step).value.installationId == r.installationId
    ensures Next(r, step).value.privateKey == r.privateKey
  {
    if step.Adopted? {
      AdoptedAny(r, r.pending.value, step.data);
    }
    hide AdoptCredentials, ValidRevocation, NothingToRevoke, IsNewRequest, IsCancelIntent, RecoveryReference;
  }

  // ---- Recovery receipts ---------------------------------------------------

  /// `s` keeps every receipt of `r`: same binding, and a settled one unchanged.
  predicate ReceiptsKept(r: map<string, Receipt>, s: map<string, Receipt>) {
    forall k <- r ::
      && k in s && s[k].installationId == r[k].installationId && s[k].reference == r[k].reference
      && (r[k].Settled() ==> s[k] == r[k])
  }

  lemma ReceiptsKeptTransitive(a: map<string, Receipt>, b: map<string, Receipt>, c: map<string, Receipt>)
    requires ReceiptsKept(a, b) && ReceiptsKept(b, c)
    ensures ReceiptsKept(a, c)
  {
    forall k <- a
      ensures k in c && c[k].installationId == a[k].installationId && c[k].reference == a[k].reference
      ensures a[k].Settled() ==> c[k] == a[k]
    {
      assert k in b;
    }
  }

  /// What one write may do to the receipts.
  predicate ReceiptChange(r: Record, step: Step, next: Record) {
    var s := next.recoveries;
    match step
    case ReceiptBound(k, reference) =>
      k !in r.recoveries && s.Keys == r.recoveries.Keys + {k} && s - {k} == r.recoveries
      && s[k].installationId == r.installationId && s[k].reference == reference && s[k].result.None?
      && (reference.Foreign? ==> IsReferenceText(reference.text))
      && (s[k].rejection.None? <==> RecoveryReference(r) == Some(reference))
    case Rejected => r.pending.Some? && RejectsAwaiting(r, s)
    case Adopted(_) => r.pending.Some? && ResolvesAwaiting(r, s, OutcomeOf(next, RecoveryReference(r)))
    case _ => s == r.recoveries
  }

  predicate RejectsAwaiting(r: Record, s: map<string, Receipt>) {
    && s.Keys == r.recoveries.Keys
    && (forall k <- s ::
          s[k] == if Awaits(r, k) then r.recoveries[k].(rejection := Some(RecoveryRejected)) else r.recoveries[k])
  }

  predicate ResolvesAwaiting(r: Record, s: map<string, Receipt>, result: Reconciled) {
    && s.Keys == r.recoveries.Keys
    && (forall k <- s ::
          s[k] == if Awaits(r, k) then r.recoveries[k].(result := Some(result)) else r.recoveries[k])
  }

  /// Any text but one of this shape is kept out of the record.
  predicate IsReferenceText(text: string) {
    |text| == 67 && text[0] == 'a' && text[1] == 'r' && text[2] == '-' && forall i :: 3 <= i < 67 ==> IsHex(text[i])
  }

  /// The receipt has no answer yet, and this record's request is the one to give it.
  predicate Awaits(r: Record, k: string) {
    && k in r.recoveries && r.recoveries[k].result.None? && r.recoveries[k].rejection.None?
    && Some(r.recoveries[k].reference) == RecoveryReference(r)
  }

  /// What a completed recovery reports about the record that it has written.
  function OutcomeOf(next: Record, reference: Option<Reference>): Reconciled {
    Reconciled(next.device.Some?, next.active, reference)
  }

  lemma AdoptionReceipts(r: Record, data: Json.Value)
    requires Adopt(r, data).Some?
    ensures ReceiptChange(r, Adopted(data), Adopt(r, data).value)
  {
    AdoptedAny(r, r.pending.value, data);
    ReferenceOfPending(r);
    SettlingAnswersAwaiting(r, OutcomeOf(Adopt(r, data).value, RecoveryReference(r)));
    hide AdoptCredentials, RecoveryReference, SettleResults, ResolvesAwaiting;
  }

  lemma ReferenceOfPending(r: Record)
    requires r.pending.Some?
    ensures RecoveryReference(r).Some?
  {
    hide PendingGeneration, BrowserGeneration;
  }

  lemma SettlingAnswersAwaiting(r: Record, result: Reconciled)
    requires RecoveryReference(r).Some?
    ensures RejectsAwaiting(r, SettleRejections(r.recoveries, RecoveryReference(r).value))
    ensures ResolvesAwaiting(r, SettleResults(r.recoveries, RecoveryReference(r).value, result), result)
  {
    hide RecoveryReference;
  }

  lemma RejectionReceipts(r: Record)
    requires Reject(r).Some?
    ensures ReceiptChange(r, Rejected, Reject(r).value)
  {
    if r.pending.Some? {
      ReferenceOfPending(r);
      SettlingAnswersAwaiting(r, Reconciled(false, None, None));
    }
    hide RecoveryReference, SettleRejections, RejectsAwaiting;
  }

  lemma BindingReceipts(r: Record, key: string, reference: Reference)
    requires BindReceipt(r, key, reference).Some?
    ensures ReceiptChange(r, ReceiptBound(key, reference), BindReceipt(r, key, reference).value)
  {
    hide RecoveryReference;
  }

  lemma OtherReceipts(r: Record, step: Step)
    requires Next(r, step).Some? && !step.Adopted? && !step.ReceiptBound? && !step.Rejected?
    ensures Next(r, step).value.recoveries == r.recoveries
  {
    hide Adopt, BindReceipt, Reject, RecoveryReference, ValidRevocation, NothingToRevoke, IsNewRequest, IsCancelIntent,
      PendingGeneration, CredentialIdentity;
  }

  lemma StepReceipts(r: Record, step: Step)
    requires Next(r, step).Some?
    ensures ReceiptChange(r, step, Next(r, step).value)
  {
    if step.Adopted? {
      AdoptionReceipts(r, step.data);
    } else if step.ReceiptBound? {
      BindingReceipts(r, step.key, step.reference);
    } else if step.Rejected? {
      RejectionReceipts(r);
    } else {
      OtherReceipts(r, step);
    }
    hide Adopt, BindReceipt, RecoveryReference, ValidRevocation, NothingToRevoke, IsNewRequest, IsCancelIntent,
      PendingGeneration, SettleResults, SettleRejections, BrowserGeneration;
  }

  lemma ChangeKeepsReceipts(r: Record, step: Step, next: Record)
    requires ReceiptChange(r, step, next)
    ensures ReceiptsKept(r.recoveries, next.recoveries)
  {
    if step.ReceiptBound? {
      forall k <- r.recoveries ensures k in next.recoveries && next.recoveries[k] == r.recoveries[k] {
        assert k in next.recoveries - {step.key};
      }
    }
    hide RecoveryReference, OutcomeOf;
  }

  lemma StepKeepsReceipts(r: Record, step: Step)
    requires Next(r, step).Some?
    ensures ReceiptsKept(r.recoveries, Next(r, step).value.recoveries)
  {
    StepReceipts(r, step);
    ChangeKeepsReceipts(r, step, Next(r, step).value);
    hide Next, ReceiptChange, ReceiptsKept;
  }

  /// A receipt is written once: over any run its key keeps its installation and
  /// reference, and its outcome never changes once there is one.
  lemma {:induction false} ReceiptsWriteOnce(p: History, h: History)
    requires Lawful(h) && Continuous(p, h) && Cell(p).Some?
    ensures Cell(h).Some? && ReceiptsKept(Cell(p).value.recoveries, Cell(h).value.recoveries)
  {
    if p != h {
      ReceiptsWriteOnce(p, h.past);
      if h.event.Saved? {
        var r := Cell(h.past).value;
        StepKeepsReceipts(r, h.event.step);
        ReceiptsKeptTransitive(Cell(p).value.recoveries, r.recoveries, Cell(h).value.recoveries);
      }
    }
    hide Next, Supported, MayRequest, MayTransmit, ReceiptsKept;
  }

  /// Only the request whose reference a receipt holds settles it, and a success
  /// is recorded by the very write that clears that request.
  lemma ReceiptSettledByItsOwnRequest(past: History, r: Record, step: Step, k: string)
    requires Cell(past) == Some(r) && Next(r, step).Some? && Supported(past, r, step)
    requires k in r.recoveries && !r.recoveries[k].Settled()
    requires k in Next(r, step).value.recoveries && Next(r, step).value.recoveries[k].Settled()
    ensures r.pending.Some? && RecoveryReference(r) == Some(r.recoveries[k].reference)
    ensures var s := Next(r, step).value;
      && (s.recoveries[k].result.None? || s.recoveries[k].rejection.None?)
      && (s.recoveries[k].result.Some? ==>
            (&& step.Adopted? && s.pending.None?
             && s.recoveries[k].result.value == OutcomeOf(s, Some(r.recoveries[k].reference))))
      && (s.recoveries[k].rejection.Some? ==> step.Rejected? && Answered(past, r) && past.event.reply == Refused(false))
  {
    StepReceipts(r, step);
    var s := Next(r, step).value;
    assert step.Adopted? ==> r.pending.Some? && s.pending.None?;
    assert step.Rejected? ==> r.pending.Some?;
    hide AdoptCredentials, RecoveryReference;
  }

  /// The last write stored this result, which describes the record it is part of.
  predicate WritesResult(w: History, k: string, reference: Reference, result: Reconciled) {
    && w.Then? && w.event.Saved? && w.event.step.Adopted? && w.event.record.pending.None?
    && result == OutcomeOf(w.event.record, Some(reference))
    && k in w.event.record.recoveries && w.event.record.recoveries[k].result == Some(result)
  }

  /// Whatever a receipt reports was true of the record in which it was first
  /// reported: the write that completed the request of its own reference.
  lemma {:induction false} ResultWasTrueWhenWritten(p: History, h: History, k: string) returns (w: History)
    requires Lawful(h) && Continuous(p, h) && Cell(p).Some? && Cell(h).Some?
    requires k in Cell(p).value.recoveries && !Cell(p).value.recoveries[k].Settled()
    requires k in Cell(h).value.recoveries && Cell(h).value.recoveries[k].result.Some?
    ensures Prefix(w, h) && Continuous(p, w)
    ensures WritesResult(w, k, Cell(p).value.recoveries[k].reference, Cell(h).value.recoveries[k].result.value)
  {
    ReceiptsWriteOnce(p, h.past);
    var r := Cell(h.past).value;
    if r.recoveries[k].Settled() {
      ReceiptsWriteOnce(h.past, h);
      w := ResultWasTrueWhenWritten(p, h.past, k);
    } else {
      assert h.event.Saved?;
      ReceiptSettledByItsOwnRequest(h.past, r, h.event.step, k);
      w := h;
    }
    hide Next, Supported, MayRequest, MayTransmit, Supply;
  }

  // ---- Write-ahead and exact replay ----------------------------------------

  predicate HeldBy(cell: Option<Record>, p: Pending) {
    cell.Some? && cell.value.pending.Some? &&
    (cell.value.pending.value == p || cell.value.pending.value.superseded == Some(p))
  }

  /// `p` was journaled, or displaced, in some durable record of `h`.
  predicate Held(h: History, p: Pending) {
    HeldBy(Cell(h), p) || (h.Then? && Held(h.past, p))
  }

  lemma {:induction false} HeldBelowSupply(h: History, p: Pending)
    requires Held(h, p)
    ensures Stamp(p) < Supply(h)
  {
    if HeldBy(Cell(h), p) {
      SupplyCoversCell(h);
      var held := Cell(h).value.pending.value;
      assert Stamp(p) < PendingSupply(held);
      hide Stamp, Supply;
    } else {
      HeldBelowSupply(h.past, p);
      hide Stamp, RecordSupply;
    }
  }

  lemma {:induction false} SupplyGrows(p: History, h: History)
    requires Prefix(p, h)
    ensures Supply(p) <= Supply(h)
  {
    if p != h {
      SupplyGrows(p, h.past);
    }
    hide RecordSupply;
  }

  /// A request held after a step was held before it, up to the recovery mark,
  /// or was installed by the step with a random value never seen before.
  lemma StepHolds(past: History, r: Record, step: Step, q: Pending)
    requires Sound(r) && Next(r, step).Some? && Supported(past, r, step)
    requires HeldBy(Next(r, step), q)
    ensures || HeldBy(Some(r), q)
            || (r.pending.Some? && Core(r.pending.value) == Core(q))
            || (Next(r, step).value.pending == Some(q) && Stamp(q) >= Supply(past) && Installs(step))
  {
    hide AdoptCredentials, ValidRevocation, NothingToRevoke, Supply, SettleResults, SettleRejections,
      PendingGeneration, RecoveryReference, SoundEvidence;
  }

  /// A random value identifies one request, route, body, start time and all.
  lemma {:induction false} SameStampSameRequest(h: History, p: Pending, q: Pending)
    requires Lawful(h) && Undisturbed(h)
    requires Held(h, p) && Held(h, q) && Stamp(p) == Stamp(q)
    ensures Core(p) == Core(q)
  {
    if h.Boot? {
    } else if Held(h.past, p) && Held(h.past, q) {
      SameStampSameRequest(h.past, p, q);
    } else {
      var p' := EarlierHolder(h, p);
      var q' := EarlierHolder(h, q);
      if p'.Some? && q'.Some? {
        SameStampSameRequest(h.past, p'.value, q'.value);
      } else if p'.Some? {
        HeldBelowSupply(h.past, p'.value);
      } else if q'.Some? {
        HeldBelowSupply(h.past, q'.value);
      }
    }
    hide Stamp, LawfulEvent, Supply;
  }

  /// Finds the request of the shorter history that `p` comes from, if there is one.
  lemma EarlierHolder(h: History, p: Pending) returns (earlier: Option<Pending>)
    requires h.Then? && Lawful(h) && Undisturbed(h) && Held(h, p)
    ensures earlier.Some? ==> Held(h.past, earlier.value) && Core(earlier.value) == Core(p)
    ensures earlier.Some? ==> Stamp(earlier.value) == Stamp(p)
    ensures earlier.None? ==> Cell(h).Some? && Cell(h).value.pending == Some(p) && Stamp(p) >= Supply(h.past)
  {
    if Held(h.past, p) {
      return Some(p);
    }
    assert h.event.Saved?;
    if Cell(h.past).Some? {
      var r := Cell(h.past).value;
      StructuralInvariant(h.past);
      StepHolds(h.past, r, h.event.step, p);
      if r.pending.Some? && Core(r.pending.value) == Core(p) {
        earlier := Some(r.pending.value);
      } else {
        earlier := None;
      }
    } else {
      assert false;
    }
    hide Next, Supported, MayRequest, MayTransmit, Supply;
  }

  lemma {:induction false} PrefixHeld(a: History, h: History, p: Pending)
    requires Prefix(a, h) && Held(a, p)
    ensures Held(h, p)
  {
    if a != h {
      PrefixHeld(a, h.past, p);
    }
    hide HeldBy;
  }

  /// Every send is preceded by the write of exactly that request, and the first
  /// send comes directly after the write that installed it.
  lemma WriteAhead(h: History)
    requires Lawful(h) && h.Then? && h.event.Transmitted?
    ensures h.past.Then? && h.past.event.Saved? && h.past.event.record.pending == Some(h.event.pending)
    ensures !h.event.recovery ==> Installs(h.past.event.step)
    ensures h.event.recovery ==> h.event.pending.recoveryUsed
  {
    hide Supply;
  }

  /// All sends of one request carry the same route and body; only the recovery
  /// flag may differ.
  lemma ExactReplay(h: History, a: History, b: History)
    requires Lawful(h) && Undisturbed(h) && Prefix(a, h) && Prefix(b, h)
    requires a.Then? && a.event.Transmitted? && b.Then? && b.event.Transmitted?
    requires Stamp(a.event.pending) == Stamp(b.event.pending)
    ensures MessageOf(a.event).route == MessageOf(b.event).route
    ensures MessageOf(a.event).body == MessageOf(b.event).body
    ensures a.event.pending.startedAt == b.event.pending.startedAt
  {
    PrefixLawful(a, h);
    PrefixLawful(b, h);
    assert Held(a, a.event.pending);
    assert Held(b, b.event.pending);
    PrefixHeld(a, h, a.event.pending);
    PrefixHeld(b, h, b.event.pending);
    SameStampSameRequest(h, a.event.pending, b.event.pending);
    hide Stamp, Supply;
  }

  /// Over all crashes and retries a request goes out at most once without the flag.
  lemma FirstSendOnce(a: History, b: History)
    requires Lawful(b) && b.Then? && Prefix(a, b.past)
    requires a.Then? && a.event.Transmitted? && b.event.Transmitted? && !b.event.recovery
    ensures Stamp(a.event.pending) != Stamp(b.event.pending)
  {
    WriteAhead(b);
    var install := b.past;
    PrefixLawful(a, install);
    assert Prefix(a, install.past);
    assert HeldBy(Cell(a), a.event.pending);
    HeldBelowSupply(a, a.event.pending);
    SupplyGrows(a, install.past);
    InstalledStampIsNew(install);
    hide Stamp, Supply, LawfulEvent;
  }

  lemma InstalledStampIsNew(h: History)
    requires Lawful(h) && h.Then? && h.event.Saved? && Installs(h.event.step)
    ensures h.event.record.pending.Some? && Stamp(h.event.record.pending.value) >= Supply(h.past)
  {
    hide Supply;
  }

  // ---- What a journaled request carries ------------------------------------

  /// A request goes to the endpoint of its kind, and is signed by this
  /// installation for its own purpose over the very secret that it presents.
  predicate WellBuilt(r: Record, p: Pending) {
    match p.target
    case BrowserExchange =>
      p.route.ExchangeRoute? && p.body.ExchangeBody? && Proves(r, p.body.proof, ProveExchange, p.body.code)
    case Bootstrap =>
      p.route.BootstrapRoute? && p.body.BootstrapBody? && Proves(r, p.body.proof, ProveBootstrap, p.body.grant)
    case BrowserCancel =>
      && p.route.CancelRoute? && p.body.CancelBody? && p.body.proof.key == r.privateKey
      && p.body.proof.secret == p.body.browserState
      && (p.body.proof.purpose == if p.body.revokeApproved then ProveCancelRecovery else ProveCancel)
    case DeviceRefresh =>
      && p.route.DeviceRefreshRoute? && p.body.RefreshBody?
      && Proves(r, p.body.proof, ProveDeviceRefresh, p.body.refreshToken)
    case ChildRefresh(_) =>
      p.route.ChildRefreshRoute? && p.body.RefreshBody? && Proves(r, p.body.proof, ProveRefresh, p.body.refreshToken)
    case Enroll(org) => p.route == EnrollRoute(org) && p.body.EnrollBody?
  }

  /// The journaled request is well built, and so is the one that it displaced.
  predicate HoldsBuilt(cell: Option<Record>) {
    cell.Some? && cell.value.pending.Some? ==>
      && WellBuilt(cell.value, cell.value.pending.value)
      && (cell.value.pending.value.superseded.Some? ==>
            (&& WellBuilt(cell.value, cell.value.pending.value.superseded.value)
             && cell.value.pending.value.superseded.value.superseded.None?))
  }

  predicate StartsBuilt(h: History) {
    match h
    case Boot(cell) => HoldsBuilt(cell)
    case Then(past, e) => StartsBuilt(past) && (e.Overwritten? ==> HoldsBuilt(e.cell))
  }

  lemma StepKeepsBuilt(r: Record, step: Step)
    requires HoldsBuilt(Some(r)) && Next(r, step).Some? && Sound(r)
    ensures HoldsBuilt(Next(r, step))
  {
    if step.Adopted? {
      AdoptedAny(r, r.pending.value, step.data);
      hide AdoptCredentials;
    } else if Installs(step) {
      InstalledIsBuilt(r, step);
    } else {
      KeptIsBuilt(r, step);
    }
    hide Next, Sound, HoldsBuilt;
  }

  lemma InstalledIsBuilt(r: Record, step: Step)
    requires HoldsBuilt(Some(r)) && Next(r, step).Some? && Sound(r) && Installs(step)
    ensures HoldsBuilt(Next(r, step))
  {
    hide PendingGeneration, SoundEvidence, Stamp;
  }

  /// No other step makes a request.
  lemma KeptIsBuilt(r: Record, step: Step)
    requires HoldsBuilt(Some(r)) && Next(r, step).Some? && !Installs(step) && !step.Adopted?
    ensures HoldsBuilt(Next(r, step))
  {
    StepKeepsInstallation(r, step);
    hide ValidRevocation, NothingToRevoke, RecoveryReference, SettleRejections, CredentialIdentity, IsNewRequest,
      IsCancelIntent, Adopt;
  }

  /// Whatever leaves the process, first or repeated, restored or not, is well built.
  lemma {:induction false} SentRequestsAreWellBuilt(h: History)
    requires Lawful(h) && Undisturbed(h) && StartsBuilt(h)
    ensures HoldsBuilt(Cell(h))
    ensures h.Then? && h.event.Transmitted? ==>
      && Cell(h).Some? && WellBuilt(Cell(h).value, h.event.pending)
      && MessageOf(h.event) == Message(h.event.pending.route, h.event.pending.body, h.event.recovery)
  {
    if h.Then? {
      SentRequestsAreWellBuilt(h.past);
      StructuralInvariant(h.past);
      if h.event.Saved? && Cell(h.past).Some? {
        StepKeepsBuilt(Cell(h.past).value, h.event.step);
      }
    }
    hide Next, Supported, MayRequest, WellBuilt, Sound;
  }
}
