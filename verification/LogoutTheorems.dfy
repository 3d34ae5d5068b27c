// Revocation over whole runs: nothing that the server could still honour leaves
// the store before the server has confirmed that it is revoked.

module LogoutTheorems {
  import opened Basics
  import opened Credentials
  import opened AuthHistory
  import opened AuthInvariant
  import opened AuthTheorems
  import Json

  /// The server confirmed, in some earlier answer, the logout of this device.
  predicate LogoutOnWire(h: History, device: string) {
    h.Then? &&
    (|| (&& h.event.Requested? && h.event.call.LogoutCall? && h.event.reply.Accepted?
         && h.event.bearer.Some? && h.event.bearer.value.subject == device
         && Json.At(h.event.reply.data, Json.Revoked) == Json.Bool(true))
     || LogoutOnWire(h.past, device))
  }

  /// The last event began a new sign-in; what was confirmed before says nothing about it.
  predicate NewSignIn(h: History) {
    h.Then? && h.event.Saved? && h.event.step.LoginStarted?
  }

  /// As above, since the last sign-in began.
  predicate LoggedOutSince(h: History, device: string) {
    h.Then? && !NewSignIn(h) &&
    (|| (&& h.event.Requested? && h.event.call.LogoutCall? && h.event.reply.Accepted?
         && h.event.bearer.Some? && h.event.bearer.value.subject == device
         && Json.At(h.event.reply.data, Json.Revoked) == Json.Bool(true))
     || LoggedOutSince(h.past, device))
  }

  lemma {:induction false} SinceIsOnWire(h: History, device: string)
    requires LoggedOutSince(h, device)
    ensures LogoutOnWire(h, device)
  {
    if LoggedOutSince(h.past, device) {
      SinceIsOnWire(h.past, device);
    }
  }

  /// Since the last sign-in began, the server confirmed a browser cancellation.
  predicate CancelledSince(h: History) {
    h.Then? && !NewSignIn(h) &&
    (|| (&& h.event.Transmitted? && h.event.pending.target.BrowserCancel? && h.event.reply.Accepted?
         && Json.At(h.event.reply.data, Json.Canceled) == Json.Bool(true))
     || CancelledSince(h.past))
  }

  predicate Backed(h: History, e: Evidence) {
    match e.kind
    case DeviceLogout => e.identity.deviceId.Some? && LoggedOutSince(h, e.identity.deviceId.value)
    case CancelledInBrowser => CancelledSince(h)
    case OtherKind(_) => false
  }

  /// The first record carried no evidence of its own.
  predicate BootsWithoutEvidence(h: History) {
    if h.Boot? then h.cell.Some? ==> h.cell.value.revocation.None? else BootsWithoutEvidence(h.past)
  }

  /// A step writes evidence only from a confirming answer; otherwise it keeps or drops it.
  lemma StepEvidence(past: History, r: Record, step: Step)
    requires Cell(past) == Some(r) && Next(r, step).Some? && Supported(past, r, step)
    ensures var e := Next(r, step).value.revocation;
      e.None? || e == r.revocation || (Backed(past, e.value) && (step.DeviceRevoked? || step.CancelConfirmed?))
  {
    if step.Adopted? {
      AdoptedAny(r, r.pending.value, step.data);
    }
    hide AdoptCredentials, ValidRevocation, NothingToRevoke, IsNewRequest, IsCancelIntent, PendingGeneration,
      RecoveryReference, SettleResults, SettleRejections, Supply;
  }

  lemma {:induction false} EvidenceIsBacked(h: History)
    requires Lawful(h) && Undisturbed(h) && BootsWithoutEvidence(h)
    ensures Cell(h).Some? && Cell(h).value.revocation.Some? ==> Backed(h, Cell(h).value.revocation.value)
  {
    if h.Then? {
      EvidenceIsBacked(h.past);
      if h.event.Saved? && Cell(h.past).Some? {
        StepEvidence(h.past, Cell(h.past).value, h.event.step);
      }
    }
    hide Supported, MayRequest, MayTransmit, Sound;
  }

  /// The server confirmed the logout of the device that `r` identifies.
  predicate IdentityLoggedOut(h: History, r: Record) {
    CredentialIdentity(r).deviceId.Some? && LoggedOutSince(h, CredentialIdentity(r).deviceId.value)
  }

  /// The write that erases a session: every authority in the erased record had
  /// been revoked by a confirmed answer, or there was none.
  lemma ErasureIsConfirmed(h: History)
    requires Lawful(h) && Undisturbed(h) && BootsWithoutEvidence(h)
    requires h.Then? && h.event.Saved? && h.event.step.LogoutCleared?
    ensures Cell(h.past).Some? && Cell(h).Some? && NothingLeft(Cell(h).value)
    ensures var r := Cell(h.past).value; var s := Cell(h).value;
      && s.installationId == r.installationId && s.privateKey == r.privateKey
      && s.revocation == r.revocation && s.recoveries == r.recoveries
    ensures var r := Cell(h.past).value;
      && (r.device.Some? ==> LoggedOutSince(h.past, r.device.value.subject))
      && (r.children != map[] ==> IdentityLoggedOut(h.past, r))
      && (r.pending.Some? || BrowserStarted(r) ==> CancelledSince(h.past) || IdentityLoggedOut(h.past, r))
  {
    var r := Cell(h.past).value;
    EvidenceIsBacked(h.past);
    if r.device.Some? || r.children != map[] || r.pending.Some? || BrowserStarted(r) {
      assert ValidRevocation(r);
      assert Backed(h.past, r.revocation.value);
    }
    hide MayRequest, MayTransmit, Sound, Supply;
  }

  /// A device that the store once held is still there under the same subject,
  /// or the server has confirmed its logout.
  lemma {:induction false} DeviceNeverForgotten(p: History, h: History, device: string)
    requires Lawful(h) && Undisturbed(h) && BootsWithoutEvidence(h) && Prefix(p, h)
    requires Cell(p).Some? && Cell(p).value.device.Some? && Cell(p).value.device.value.subject == device
    ensures || LogoutOnWire(h, device)
            || (Cell(h).Some? && Cell(h).value.device.Some? && Cell(h).value.device.value.subject == device)
  {
    if p != h {
      DeviceNeverForgotten(p, h.past, device);
      if !LogoutOnWire(h.past, device) {
        match h.event
        case Saved(step, next) =>
          StructuralInvariant(h.past);
          if step.LogoutCleared? {
            ErasureIsConfirmed(h);
            if LoggedOutSince(h.past, device) {
              SinceIsOnWire(h.past, device);
            }
          } else {
            StepKeepsDevice(Cell(h.past).value, step);
          }
        case _ =>
      }
    }
    hide Next, Supported, MayRequest, MayTransmit, Sound;
  }

  lemma StepKeepsDevice(r: Record, step: Step)
    requires Sound(r) && Next(r, step).Some? && !step.LogoutCleared? && r.device.Some?
    ensures SameDevice(r, Next(r, step).value)
    ensures r.children.Keys <= Next(r, step).value.children.Keys
  {
    if step.Adopted? {
      AdoptedAny(r, r.pending.value, step.data);
    } else {
      OtherStepKeepsTokens(r, step);
      hide Next;
    }
    hide AdoptCredentials, SettleResults, RecoveryReference, SoundEvidence, SoundSuperseded;
  }

  /// Only an adoption or a logout touches tokens.
  lemma OtherStepKeepsTokens(r: Record, step: Step)
    requires Next(r, step).Some? && !step.LogoutCleared? && !step.Adopted?
    ensures Next(r, step).value.device == r.device && Next(r, step).value.children == r.children
  {
    hide Adopt, ValidRevocation, NothingToRevoke, IsNewRequest, IsCancelIntent, PendingGeneration, RecoveryReference,
      SettleRejections, CredentialIdentity;
  }

  // ---- Durable evidence ----------------------------------------------------

  /// From `p` on, no new login, deletion or foreign write.
  predicate NoNewLogin(p: History, h: History) {
    p == h ||
    (&& h.Then? && !h.event.Deleted? && !h.event.Overwritten? && !(h.event.Saved? && h.event.step.LoginStarted?)
     && NoNewLogin(p, h.past))
  }

  predicate NoLogoutRequest(p: History, h: History) {
    p == h || (h.Then? && !(h.event.Requested? && h.event.call.LogoutCall?) && NoLogoutRequest(p, h.past))
  }

  predicate LoggedOutDevice(r: Record) {
    r.revocation.Some? && r.revocation.value.kind.DeviceLogout?
  }

  lemma DeviceEvidenceIsValid(r: Record)
    requires Sound(r) && LoggedOutDevice(r)
    ensures ValidRevocation(r) && CredentialIdentity(r) == r.revocation.value.identity
    ensures CredentialIdentity(LoggedOut(r)) == CredentialIdentity(r) && ValidRevocation(LoggedOut(r))
  {
    hide SoundPending;
  }

  /// The identity reported before and after clearing is the same.
  lemma ClearingKeepsIdentity(r: Record)
    requires ClearLogout(r).Some?
    ensures CredentialIdentity(LoggedOut(r)) == CredentialIdentity(r)
    ensures ValidRevocation(r) <==> ValidRevocation(LoggedOut(r))
  {
  }

  /// Evidence of another installation, of unknown kind, without time, or of less
  /// than what is stored confirms nothing; that of another one identifies nobody here.
  lemma WorthlessEvidence(r: Record)
    requires r.revocation.Some?
    ensures Worthless(r, r.revocation.value) ==> !ValidRevocation(r)
    ensures r.revocation.value.identity.installationId != r.installationId ==>
      CredentialIdentity(r) == CredentialIdentity(r.(revocation := None))
  {
  }

  predicate Worthless(r: Record, e: Evidence) {
    || e.identity.installationId != r.installationId || e.confirmedAt == 0 || e.kind.OtherKind?
    || (e.kind.DeviceLogout? && e.identity.deviceId.None?)
    || (r.device.Some? && e.identity.deviceId != Some(r.device.value.subject))
    || (e.kind.CancelledInBrowser? && (r.device.Some? || r.children != map[]))
  }

  lemma StepKeepsDeviceEvidence(past: History, r: Record, step: Step)
    requires Sound(r) && LoggedOutDevice(r) && Lawful(past)
    requires Cell(past) == Some(r) && Next(r, step).Some? && Supported(past, r, step)
    requires !step.LoginStarted?
    ensures Next(r, step).value.revocation == r.revocation
  {
    DeviceEvidenceIsValid(r);
    if step.Adopted? {
      AdoptedAny(r, r.pending.value, step.data);
    }
    if step.DeviceRevoked? {
      assert false;  // the logout request itself needs a record without evidence
    }
    hide AdoptCredentials, ValidRevocation, NothingToRevoke, IsCancelIntent, PendingGeneration, RecoveryReference,
      SettleResults, SettleRejections, Supply, SoundSuperseded, CredentialIdentity;
  }

  /// Once the logout of a device is durably confirmed, it stays confirmed under
  /// the same identity until a new login, and no further logout request is sent.
  lemma {:induction false} DeviceEvidenceStays(p: History, h: History)
    requires Lawful(h) && Undisturbed(h) && NoNewLogin(p, h)
    requires Cell(p).Some? && LoggedOutDevice(Cell(p).value)
    ensures Cell(h).Some? && Cell(h).value.revocation == Cell(p).value.revocation
    ensures ValidRevocation(Cell(h).value)
    ensures CredentialIdentity(Cell(h).value) == CredentialIdentity(Cell(p).value)
    ensures NoLogoutRequest(p, h)
  {
    StructuralInvariant(h);
    if p != h {
      DeviceEvidenceStays(p, h.past);
      StructuralInvariant(h.past);
      var r := Cell(h.past).value;
      if h.event.Saved? {
        StepKeepsDeviceEvidence(h.past, r, h.event.step);
      }
      NoNewLoginPrefix(p, h);
      StructuralInvariant(p);
      DeviceEvidenceIsValid(Cell(p).value);
    }
    DeviceEvidenceIsValid(Cell(h).value);
    hide Next, Supported, MayTransmit, Sound, ValidRevocation, CredentialIdentity;
  }

  lemma {:induction false} NoNewLoginPrefix(p: History, h: History)
    requires Lawful(h) && Undisturbed(h) && NoNewLogin(p, h)
    ensures Lawful(p) && Undisturbed(p)
  {
    if p != h {
      NoNewLoginPrefix(p, h.past);
    }
    hide LawfulEvent, Sound;
  }
}
