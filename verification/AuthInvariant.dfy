// The structural invariant of the protected record, over every lawful history.

module AuthInvariant {
  import opened Basics
  import opened Credentials
  import opened AuthHistory
  import Json

  /// Only the lock holder wrote, and the first record was sound.
  predicate Undisturbed(h: History) {
    if h.Boot? then h.cell.Some? ==> Sound(h.cell.value)
    else !h.event.Overwritten? && Undisturbed(h.past)
  }

  /// Nothing that a logout erases is left.
  predicate Erased(r: Record) {
    r.device.None? && r.children == map[] && r.pending.None? && r.login.None? && !r.logoutPending
  }

  /// The same, and nothing derived from it either.
  predicate NothingLeft(r: Record) {
    Erased(r) && r.profiles == map[] && r.bindings == map[] && r.upgrades == map[] && r.active.None?
  }

  predicate SoundEvidence(r: Record, e: Evidence) {
    && e.identity.installationId == r.installationId
    && e.confirmedAt > 0
    && (r.logoutPending || Erased(r))
    && (match e.kind
        case DeviceLogout =>
          && e.identity.deviceId.Some?
          && (if r.device.Some? then r.device.value.subject == e.identity.deviceId.value else Erased(r))
        case CancelledInBrowser => e.identity.deviceId.None?
        case OtherKind(_) => false)
  }

  predicate SoundSuperseded(r: Record, p: Pending) {
    p.superseded.Some? ==>
      && p.target.BrowserCancel?
      && (p.superseded.value.target.BrowserExchange? || p.superseded.value.target.Bootstrap?)
      && p.superseded.value.superseded.None?
      && Stamp(p.superseded.value) != Stamp(p)
      && !(p.superseded.value.generation.Some? && p.superseded.value.generation.value.RecordDigest?
           && p.superseded.value.generation.value.target.BrowserCancel?)
  }

  predicate SoundPending(r: Record, p: Pending) {
    && (match p.target
        case DeviceRefresh => r.device.Some?
        case Enroll(_) => r.device.Some?
        case ChildRefresh(org) => org in r.children
        case _ => r.device.None?)
    && (p.target.BrowserCancel? ==> p.generation.None?)
    && ((p.target.BrowserExchange? || p.target.Bootstrap?) ==>
          !(p.generation.Some? && p.generation.value.RecordDigest? && p.generation.value.target.BrowserCancel?))
    && SoundSuperseded(r, p)
  }

  predicate Sound(r: Record) {
    && (r.device.Some? ==> r.login.None?)
    && (r.pending.Some? ==> SoundPending(r, r.pending.value))
    && (r.revocation.Some? ==> SoundEvidence(r, r.revocation.value))
  }

  /// Writes that touch neither tokens, the journaled request nor evidence.
  lemma LocalWriteKeepsSound(r: Record, s: Record)
    requires Sound(r)
    requires s.device == r.device && s.children == r.children && s.pending == r.pending
    requires s.revocation == r.revocation && s.installationId == r.installationId
    requires s.login == r.login || r.login.Some?
    requires s.logoutPending == r.logoutPending || (s.logoutPending && !ValidRevocation(r))
    ensures Sound(s)
  {
    hide Stamp;
  }

  lemma BeginKeepsSound(r: Record, p: Pending)
    requires Sound(r) && BeginRequest(r, p).Some?
    ensures Sound(BeginRequest(r, p).value)
  {
    hide Stamp;
  }

  lemma IntendCancelKeepsSound(r: Record, p: Pending)
    requires Sound(r) && IntendCancel(r, p).Some? && Stamp(p) >= RecordSupply(Some(r))
    ensures Sound(IntendCancel(r, p).value)
  {
    var s := IntendCancel(r, p).value;
    assert SoundPending(s, p) by {
      hide SoundEvidence;
    }
    hide Stamp;
  }

  lemma MarkKeepsSound(r: Record)
    requires Sound(r) && MarkRecovery(r).Some?
    ensures Sound(MarkRecovery(r).value)
  {
    var s := MarkRecovery(r).value;
    assert SoundPending(s, s.pending.value) by {
      hide SoundEvidence;
    }
    hide Stamp, SoundPending;
  }

  lemma LoginKeepsSound(r: Record, login: Login)
    requires Sound(r) && StartLogin(r, login).Some?
    ensures Sound(StartLogin(r, login).value)
  {
    hide Stamp;
  }

  lemma ForgetKeepsSound(r: Record, s: Record)
    requires Sound(r) && s == r.(pending := None)
    ensures Sound(s)
  {
    hide Stamp;
  }

  lemma RejectKeepsSound(r: Record)
    requires Sound(r) && Reject(r).Some?
    ensures Sound(Reject(r).value)
  {
    var settled := r.(recoveries := SettleRejections(r.recoveries, RecoveryReference(r).value));
    LocalWriteKeepsSound(r, settled);
    ForgetKeepsSound(settled, settled.(pending := None));
    hide Sound, RecoveryReference, SettleRejections;
  }

  lemma ChainKeepsSound(r: Record, grant: string, nonce: nat, at: Instant)
    requires Sound(r) && Chain(r, grant, nonce, at).Some?
    ensures Sound(Chain(r, grant, nonce, at).value)
  {
    hide Stamp;
  }

  lemma RefuseCancelKeepsSound(r: Record)
    requires Sound(r) && RefuseCancel(r).Some?
    ensures Sound(RefuseCancel(r).value)
  {
    hide Stamp;
  }

  lemma EvidenceKeepsSound(r: Record, at: Instant)
    requires Sound(r)
    ensures ConfirmCancel(r, at).Some? ==> Sound(ConfirmCancel(r, at).value)
    ensures RevokeDevice(r, at).Some? ==> Sound(RevokeDevice(r, at).value)
  {
    hide Stamp;
  }

  lemma LogoutKeepsSound(r: Record)
    requires Sound(r) && ClearLogout(r).Some?
    ensures Sound(ClearLogout(r).value)
  {
    hide Stamp;
  }

  lemma TokenSubject(data: Json.Value, subject: string, startedAt: Instant)
    ensures ParseToken(data, subject, startedAt).Some? ==> ParseToken(data, subject, startedAt).value.subject == subject
  {
  }

  /// What adoption leaves alone.
  predicate SameElsewhere(r: Record, a: Record) {
    && a.installationId == r.installationId && a.privateKey == r.privateKey && a.logoutPending == r.logoutPending
    && a.pending == r.pending && a.revocation == r.revocation && a.recoveries == r.recoveries
    && a.active == r.active && a.upgrades == r.upgrades && a.profiles == r.profiles
    && (a.login == r.login || a.login.None?)
  }

  predicate SameDevice(r: Record, a: Record) {
    if r.device.Some? then a.device.Some? && a.device.value.subject == r.device.value.subject else a.device.None?
  }

  /// No child is lost and none changes its subject.
  predicate SameChildren(r: Record, a: Record) {
    forall o <- r.children :: o in a.children && a.children[o].subject == r.children[o].subject
  }

  lemma AdoptedDevice(r: Record, p: Pending, data: Json.Value)
    requires AdoptDevice(r, p, data).Some?
    ensures var a := AdoptDevice(r, p, data).value;
      SameElsewhere(r, a) && SameDevice(r, a) && a.children == r.children && a.login == r.login
  {
    TokenSubject(data, r.device.value.subject, p.startedAt);
    hide ParseToken;
  }

  lemma AdoptedChild(r: Record, p: Pending, org: string, data: Json.Value)
    requires AdoptChild(r, p, org, data).Some?
    ensures var a := AdoptChild(r, p, org, data).value;
      && SameElsewhere(r, a) && a.device == r.device && SameChildren(r, a) && a.login == r.login
      && a.children.Keys == r.children.Keys && a.children - {org} == r.children - {org}
  {
    TokenSubject(data, r.children[org].subject, p.startedAt);
    hide ParseToken, BindingOf;
  }

  lemma AdoptedEnrollment(r: Record, p: Pending, org: string, data: Json.Value)
    requires AdoptEnrollment(r, p, org, data).Some?
    ensures var a := AdoptEnrollment(r, p, org, data).value;
      && SameElsewhere(r, a) && a.device == r.device && a.login == r.login
      && a.children.Keys == r.children.Keys + {org} && a.children - {org} == r.children - {org}
      && (org !in r.children ==> SameChildren(r, a))
  {
    hide ParseToken, PersonaBinding;
  }

  /// A rotated token keeps its subject and no child is lost.
  lemma AdoptedRotation(r: Record, p: Pending, data: Json.Value)
    requires AdoptCredentials(r, p, data).Some?
    requires p.target.DeviceRefresh? || p.target.ChildRefresh?
    ensures var a := AdoptCredentials(r, p, data).value;
      && SameElsewhere(r, a) && SameDevice(r, a) && SameChildren(r, a)
      && a.children.Keys == r.children.Keys && a.login == r.login
      && (p.target.DeviceRefresh? ==> a.children == r.children)
      && (p.target.ChildRefresh? ==>
            a.device == r.device && a.children - {p.target.org} == r.children - {p.target.org})
  {
    match p.target
    case DeviceRefresh => AdoptedDevice(r, p, data);
    case ChildRefresh(org) => AdoptedChild(r, p, org, data);
    hide AdoptDevice, AdoptChild, ParseToken;
  }

  lemma AdoptedAny(r: Record, p: Pending, data: Json.Value)
    requires AdoptCredentials(r, p, data).Some?
    ensures var a := AdoptCredentials(r, p, data).value;
      && SameElsewhere(r, a) && r.children.Keys <= a.children.Keys
      && (if p.target.Bootstrap? then a.device.Some? && a.login.None? else SameDevice(r, a))
      && (a.children != r.children ==> p.target.ChildRefresh? || p.target.Enroll?)
  {
    match p.target
    case DeviceRefresh => AdoptedDevice(r, p, data);
    case ChildRefresh(org) => AdoptedChild(r, p, org, data);
    case Enroll(org) => AdoptedEnrollment(r, p, org, data);
    case _ =>
    hide AdoptDevice, AdoptChild, AdoptEnrollment, ParseToken;
  }

  // ---- What a reply leaves in the store ------------------------------------

  /// The part of an accepted reply that carries the new token.
  function TokenPart(target: Target, data: Json.Value): Json.Value {
    match target
    case Bootstrap => Json.At(data, Json.Device)
    case BrowserExchange => Json.At(data, Json.Device)
    case Enroll(_) => Json.At(data, Json.Child)
    case _ => data
  }

  /// The token that adoption stores.
  function AdoptedToken(target: Target, a: Record): Option<Token> {
    match target
    case ChildRefresh(org) => if org in a.children then Some(a.children[org]) else None
    case Enroll(org) => if org in a.children then Some(a.children[org]) else None
    case BrowserCancel => None
    case _ => a.device
  }

  /// The secrets of a token are the two that this part of a reply names.
  predicate CarriedBy(t: Token, part: Json.Value) {
    && t.access != "" && Json.At(part, Json.AccessToken) == Json.Text(t.access)
    && t.refresh != "" && Json.At(part, Json.RefreshToken) == Json.Text(t.refresh)
  }

  /// Whose token it is: a new one belongs to whom the reply names.
  predicate NamedIn(t: Token, target: Target, data: Json.Value) {
    match target
    case Bootstrap => Json.At(Json.At(data, Json.Device), Json.DeviceId) == Json.Text(t.subject)
    case BrowserExchange => Json.At(Json.At(data, Json.Device), Json.DeviceId) == Json.Text(t.subject)
    case Enroll(_) => Json.At(Json.At(data, Json.Runner), Json.Id) == Json.Text(t.subject)
    case _ => true
  }

  /// The target's token in the store is the one that the reply hands out; a
  /// cancellation is only ever completed by its confirmation.
  predicate StoresReply(target: Target, s: Record, data: Json.Value) {
    if target.BrowserCancel? then
      Json.At(data, Json.Canceled) == Json.Bool(true)
    else
      var t := AdoptedToken(target, s);
      t.Some? && CarriedBy(t.value, TokenPart(target, data)) && NamedIn(t.value, target, data)
  }

  lemma ParsedToken(data: Json.Value, subject: string, startedAt: Instant)
    requires ParseToken(data, subject, startedAt).Some?
    ensures CarriedBy(ParseToken(data, subject, startedAt).value, data)
    ensures ParseToken(data, subject, startedAt).value.subject == subject
  {
    hide Expiry;
  }

  lemma BootstrapStoresReply(r: Record, p: Pending, data: Json.Value)
    requires AdoptBootstrap(r, p, data).Some?
    ensures StoresReply(Bootstrap, AdoptBootstrap(r, p, data).value, data)
  {
    var device := Json.At(data, Json.Device);
    ParsedToken(device, Json.Field(device, Json.DeviceId).value, p.startedAt);
    hide ParseToken, CarriedBy;
  }

  lemma RotationStoresReply(r: Record, p: Pending, org: string, data: Json.Value)
    ensures AdoptDevice(r, p, data).Some? ==> StoresReply(DeviceRefresh, AdoptDevice(r, p, data).value, data)
    ensures AdoptChild(r, p, org, data).Some? ==>
      StoresReply(ChildRefresh(org), AdoptChild(r, p, org, data).value, data)
  {
    if AdoptDevice(r, p, data).Some? {
      ParsedToken(data, r.device.value.subject, p.startedAt);
    }
    if AdoptChild(r, p, org, data).Some? {
      ParsedToken(data, r.children[org].subject, p.startedAt);
    }
    hide ParseToken, CarriedBy, BindingOf;
  }

  lemma EnrollmentStoresReply(r: Record, p: Pending, org: string, data: Json.Value)
    requires AdoptEnrollment(r, p, org, data).Some?
    ensures StoresReply(Enroll(org), AdoptEnrollment(r, p, org, data).value, data)
  {
    ParsedToken(Json.At(data, Json.Child), Json.Field(Json.At(data, Json.Runner), Json.Id).value, p.startedAt);
    hide ParseToken, CarriedBy, PersonaBinding;
  }

  lemma CredentialsStoreReply(r: Record, p: Pending, data: Json.Value)
    requires AdoptCredentials(r, p, data).Some?
    ensures StoresReply(p.target, AdoptCredentials(r, p, data).value, data)
  {
    match p.target
    case Bootstrap => BootstrapStoresReply(r, p, data);
    case DeviceRefresh => RotationStoresReply(r, p, "", data);
    case ChildRefresh(org) => RotationStoresReply(r, p, org, data);
    case Enroll(org) => EnrollmentStoresReply(r, p, org, data);
    case _ =>
    hide AdoptBootstrap, AdoptDevice, AdoptChild, AdoptEnrollment, CarriedBy, NamedIn;
  }

  lemma AdoptionUsesCredentials(r: Record, data: Json.Value)
    requires Adopt(r, data).Some?
    ensures r.pending.Some? && AdoptCredentials(r, r.pending.value, data).Some?
    ensures var a := AdoptCredentials(r, r.pending.value, data).value;
      Adopt(r, data).value.device == a.device && Adopt(r, data).value.children == a.children
  {
    hide AdoptCredentials, RecoveryReference, SettleResults;
  }

  /// Whatever request is completed, the token that it stores is the one in its answer.
  lemma AdoptionStoresReply(r: Record, data: Json.Value)
    requires Adopt(r, data).Some?
    ensures StoresReply(r.pending.value.target, Adopt(r, data).value, data)
  {
    AdoptionUsesCredentials(r, data);
    CredentialsStoreReply(r, r.pending.value, data);
    hide Adopt, AdoptCredentials, CarriedBy, NamedIn;
  }

  /// Adopting an answer keeps the invariant.
  lemma AdoptKeepsSound(r: Record, data: Json.Value)
    requires Sound(r) && Adopt(r, data).Some?
    ensures Sound(Adopt(r, data).value)
  {
    AdoptedAny(r, r.pending.value, data);
    hide Stamp, AdoptCredentials;
  }

  lemma {:induction false} SupplyCoversCell(h: History)
    ensures RecordSupply(Cell(h)) <= Supply(h)
  {
    if h.Then? {
      SupplyCoversCell(h.past);
    }
  }

  /// Every step keeps the invariant, given that new requests carry new random values.
  lemma StepKeepsSound(past: History, r: Record, step: Step)
    requires Sound(r) && Cell(past) == Some(r)
    requires Next(r, step).Some? && Supported(past, r, step)
    ensures Sound(Next(r, step).value)
  {
    var s := Next(r, step).value;
    match step
    case CancelIntended(p) => SupplyCoversCell(past); IntendCancelKeepsSound(r, p);
    case Began(p) => BeginKeepsSound(r, p);
    case RecoveryMarked => MarkKeepsSound(r);
    case EnrollDropped => ForgetKeepsSound(r, s);
    case Rejected => RejectKeepsSound(r);
    case Chained(grant, nonce, at) => ChainKeepsSound(r, grant, nonce, at);
    case CancelRefused => RefuseCancelKeepsSound(r);
    case CancelConfirmed(at) => EvidenceKeepsSound(r, at);
    case DeviceRevoked(at) => EvidenceKeepsSound(r, at);
    case LogoutCleared => LogoutKeepsSound(r);
    case Adopted(data) => AdoptKeepsSound(r, data);
    case LoginStarted(_, login) => LoginKeepsSound(r, login);
    case _ => LocalWriteKeepsSound(r, s);
    hide Sound, IntendCancel, BeginRequest, MarkRecovery, Reject, Chain, RefuseCancel, ConfirmCancel, RevokeDevice,
      ClearLogout, Adopt, StartLogin;
  }

  /// Every durable record of every lawful history is sound, whatever crashed
  /// and whatever the server answered.
  lemma {:induction false} StructuralInvariant(h: History)
    requires Lawful(h) && Undisturbed(h)
    ensures Cell(h).Some? ==> Sound(Cell(h).value)
  {
    if h.Then? {
      StructuralInvariant(h.past);
      if h.event.Saved? {
        var step := h.event.step;
        if Cell(h.past).Some? {
          StepKeepsSound(h.past, Cell(h.past).value, step);
        } else if step.LoginStarted? {
          LoginKeepsSound(step.base, step.login);
        }
      }
    }
    hide Next, Supported, MayRequest;
  }
}
