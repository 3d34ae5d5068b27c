// The protected record of one installation: its tokens, the browser sign-in in
// progress, the one journaled request, and the evidence of a finished logout.
// Digests, proofs and random values are free constructors, so that two of them
// are equal only when everything that went into them is.

module Credentials {
  import opened Basics
  import Json

  datatype Token = Token(access: string, refresh: string, subject: string, expiresAt: Instant) {
    predicate UsableAt(time: Instant) {
      expiresAt > SaturatingAdd(time, 60)
    }
  }

  function SaturatingAdd(time: Instant, seconds: nat): Instant {
    if time + seconds <= MAX_U64 then time + seconds else MAX_U64
  }

  datatype Login = Login(
    key: string,
    runnerName: string,
    flowId: string,
    expiresAt: Instant,
    authorizationUrl: Option<string>,
    transactionId: Option<string>,
    redirectUri: Option<string>,
    browserState: Option<string>,
    codeVerifier: Option<string>,
    receivedCode: Option<string>)

  datatype Profile = Profile(name: Option<string>, slug: Option<string>, enrolled: bool)

  datatype Target =
    | Bootstrap
    | BrowserExchange
    | BrowserCancel
    | DeviceRefresh
    | ChildRefresh(org: string)
    | Enroll(org: string)

  /// The control-plane endpoints of the journaled requests.
  datatype Route =
    | BootstrapRoute
    | ExchangeRoute
    | CancelRoute
    | DeviceRefreshRoute
    | ChildRefreshRoute
    | EnrollRoute(org: string)
    | OtherRoute(path: string)

  function RouteOf(target: Target): Route {
    match target
    case Bootstrap => BootstrapRoute
    case BrowserExchange => ExchangeRoute
    case BrowserCancel => CancelRoute
    case DeviceRefresh => DeviceRefreshRoute
    case ChildRefresh(_) => ChildRefreshRoute
    case Enroll(org) => EnrollRoute(org)
  }

  datatype Purpose =
    | ProveExchange
    | ProveBootstrap
    | ProveCancel
    | ProveCancelRecovery
    | ProveDeviceRefresh
    | ProveRefresh

  /// A signature by the installation key over a purpose, a secret and a nonce.
  datatype Proof = Proof(key: nat, purpose: Purpose, secret: string, nonce: nat)

  datatype Body =
    | ExchangeBody(transactionId: Option<string>, code: string, codeVerifier: Option<string>,
                   redirectUri: Option<string>, proof: Proof)
    | BootstrapBody(grant: string, proof: Proof)
    | CancelBody(transactionId: Option<string>, browserState: string, proof: Proof, revokeApproved: bool)
    | RefreshBody(refreshToken: string, proof: Proof)
    | EnrollBody(idempotencyKey: string)

  datatype Generation =
    | Random(value: nat)
    | BrowserDigest(key: nat, loginKey: string, flowId: string, transactionId: Option<string>, code: string)
    | RecordDigest(key: nat, target: Target, route: Route, body: Body, startedAt: Instant)

  datatype Pending = Pending(
    target: Target,
    route: Route,
    body: Body,
    generation: Option<Generation>,
    startedAt: Instant,
    recoveryUsed: bool,
    superseded: Option<Pending>)

  /// A reference minted by this projection, or any other text a caller sends.
  datatype Reference =
    | Minted(key: nat, installationId: string, generation: Generation)
    | Foreign(text: string)
  {
    /// The shape check made before a reference may enter the protected record.
    predicate WellFormed() {
      Foreign? ==> |text| == 67 && text[..3] == "ar-" && IsHexText(text[3..])
    }
  }

  datatype Reconciled = Reconciled(authenticated: bool, active: Option<string>, reference: Option<Reference>)

  datatype Rejection = ReferenceMismatch | RecoveryRejected

  datatype Receipt = Receipt(
    installationId: string,
    reference: Reference,
    result: Option<Reconciled>,
    rejection: Option<Rejection>)
  {
    predicate Settled() {
      result.Some? || rejection.Some?
    }
  }

  datatype Identity = Identity(installationId: string, deviceId: Option<string>)

  datatype EvidenceKind = DeviceLogout | CancelledInBrowser | OtherKind(text: string)

  datatype Evidence = Evidence(identity: Identity, kind: EvidenceKind, confirmedAt: Instant)

  /// Which runner, device and delegation a child credential is attached to.
  datatype Binding = Binding(
    org: string, runnerId: string, deviceId: string, delegationId: string, scopes: seq<string>)
  {
    predicate SameAttachment(other: Binding) {
      org == other.org && runnerId == other.runnerId && deviceId == other.deviceId
      && delegationId == other.delegationId
    }
  }

  datatype UpgradePhase = GrantPending | RefreshPending | Verified | Denied

  /// An additive grant request; `binding.scopes` is what its outcome reports.
  datatype Upgrade = Upgrade(phase: UpgradePhase, binding: Binding, requested: seq<string>)

  datatype Record = Record(
    installationId: string,
    privateKey: nat,
    device: Option<Token>,
    children: map<string, Token>,
    profiles: map<string, Profile>,
    active: Option<string>,
    login: Option<Login>,
    pending: Option<Pending>,
    logoutPending: bool,
    revocation: Option<Evidence>,
    bindings: map<string, Binding>,
    upgrades: map<(string, string), Upgrade>,
    recoveries: map<string, Receipt>)

  function Fresh(installationId: string, privateKey: nat): Record {
    Record(installationId, privateKey, None, map[], map[], None, None, None, false, None, map[], map[], map[])
  }

  // ---- Recovery references -------------------------------------------------

  function BrowserGeneration(r: Record): Option<Generation> {
    if r.login.Some? && r.login.value.receivedCode.Some? then
      var login := r.login.value;
      Some(BrowserDigest(r.privateKey, login.key, login.flowId, login.transactionId, login.receivedCode.value))
    else
      None
  }

  function PendingGeneration(r: Record, p: Pending): Generation {
    if (p.target.BrowserExchange? || p.target.Bootstrap?) && BrowserGeneration(r).Some? then
      BrowserGeneration(r).value
    else if p.generation.Some? then
      p.generation.value
    else
      // Records written before generations existed: every immutable part counts.
      RecordDigest(r.privateKey, p.target, p.route, p.body, p.startedAt)
  }

  function RecoveryReference(r: Record): Option<Reference> {
    if r.pending.Some? then
      Some(Minted(r.privateKey, r.installationId, PendingGeneration(r, r.pending.value)))
    else if BrowserGeneration(r).Some? then
      Some(Minted(r.privateKey, r.installationId, BrowserGeneration(r).value))
    else
      None
  }

  // ---- Identity and revocation evidence ------------------------------------

  function CredentialIdentity(r: Record): Identity {
    Identity(
      r.installationId,
      if r.device.Some? then Some(r.device.value.subject)
      else if r.revocation.Some? && r.revocation.value.identity.installationId == r.installationId then
        r.revocation.value.identity.deviceId
      else None)
  }

  predicate ValidRevocation(r: Record) {
    r.revocation.Some? &&
    var e := r.revocation.value;
    && e.identity == CredentialIdentity(r)
    && (match e.kind
        case DeviceLogout => e.identity.deviceId.Some?
        case CancelledInBrowser => r.device.None? && r.children == map[] && e.identity.deviceId.None?
        case OtherKind(_) => false)
    && e.confirmedAt > 0
  }

  /// A sign-in whose transaction the server is known to hold.
  predicate BrowserStarted(r: Record) {
    r.login.Some? && r.login.value.transactionId.Some?
  }

  predicate NothingToRevoke(r: Record) {
    r.device.None? && r.children == map[] && r.pending.None? && !BrowserStarted(r)
  }

  function LoggedOut(r: Record): Record {
    r.(device := None, children := map[], profiles := map[], bindings := map[], upgrades := map[],
       pending := None, login := None, logoutPending := false, active := None)
  }

  // ---- Reading tokens out of a reply ---------------------------------------

  function Expiry(data: Json.Value, startedAt: Instant): (r: Option<Instant>) {
    match Json.AsU64(Json.At(data, Json.ExpiresInSeconds))
    case None => None
    case Some(ttl) =>
      if ttl == 0 || startedAt + ttl > MAX_U64 then
        None
      else
        match Json.Get(data, Json.ExpiresAt)
        case None => Some(startedAt + ttl)
        case Some(absolute) =>
          match Json.AsU64(absolute)
          case None => None
          case Some(unix) =>
            if unix == 0 then None
            else if unix < startedAt + ttl then Some(unix)
            else Some(startedAt + ttl)
  }

  function ParseToken(data: Json.Value, subject: string, startedAt: Instant): Option<Token> {
    var access := Json.Field(data, Json.AccessToken);
    var refresh := Json.Field(data, Json.RefreshToken);
    var expiresAt := Expiry(data, startedAt);
    if access.Some? && refresh.Some? && expiresAt.Some? then
      Some(Token(access.value, refresh.value, subject, expiresAt.value))
    else
      None
  }

  function TextItems(items: seq<Json.Value>): Option<seq<string>> {
    if items == [] then
      Some([])
    else
      match (Json.AsText(items[0]), TextItems(items[1..]))
      case (Some(text), Some(rest)) => Some([text] + rest)
      case _ => None
  }

  /// A list made of texts only.
  function Texts(value: Json.Value): Option<seq<string>> {
    if value.List? then TextItems(value.items) else None
  }

  function PersonaBinding(org: string, organization: Json.Value, runner: Json.Value, device: Json.Value,
                          delegation: Json.Value, scopes: Json.Value): Option<Binding> {
    match (organization, runner, device, delegation, Texts(scopes))
    case (Text(o), Text(r), Text(d), Text(g), Some(names)) =>
      if o == org && IsUuid(d) && IsUuid(g) && IsUuid(r) then Some(Binding(org, r, d, g, names)) else None
    case _ => None
  }

  /// The attachment that five fields of a reply describe.
  predicate Describes(b: Binding, org: string, organization: Json.Value, runner: Json.Value, device: Json.Value,
                      delegation: Json.Value, scopes: Json.Value) {
    && b.org == org && organization == Json.Text(org)
    && runner == Json.Text(b.runnerId) && IsUuid(b.runnerId)
    && device == Json.Text(b.deviceId) && IsUuid(b.deviceId)
    && delegation == Json.Text(b.delegationId) && IsUuid(b.delegationId)
    && scopes.List? && |scopes.items| == |b.scopes|
    && (forall i :: 0 <= i < |b.scopes| ==> scopes.items[i] == Json.Text(b.scopes[i]))
  }

  lemma {:induction false} TextItemsExactly(items: seq<Json.Value>, names: seq<string>)
    ensures TextItems(items) == Some(names) <==>
      |items| == |names| && forall i :: 0 <= i < |names| ==> items[i] == Json.Text(names[i])
  {
    if items != [] && names != [] {
      TextItemsExactly(items[1..], names[1..]);
      assert forall i :: 0 < i < |items| ==> items[i] == items[1..][i - 1];
      assert forall i :: 0 < i < |names| ==> names[i] == names[1..][i - 1];
      assert names == [names[0]] + names[1..];
      if |items| == |names| && forall i :: 0 <= i < |names| ==> items[i] == Json.Text(names[i]) {
        assert items[0] == Json.Text(names[0]);
      }
    }
  }

  /// An attachment is read exactly when all five fields are there and well formed.
  lemma BindingExactly(b: Binding, org: string, organization: Json.Value, runner: Json.Value, device: Json.Value,
                       delegation: Json.Value, scopes: Json.Value)
    ensures PersonaBinding(org, organization, runner, device, delegation, scopes) == Some(b) <==>
      Describes(b, org, organization, runner, device, delegation, scopes)
  {
    if scopes.List? {
      TextItemsExactly(scopes.items, b.scopes);
    }
    hide IsUuid, TextItems;
  }

  /// `persona_credential_metadata` on one flat object.
  function BindingOf(data: Json.Value, org: string): Option<Binding> {
    PersonaBinding(org, Json.At(data, Json.OrganizationId), Json.At(data, Json.RunnerId), Json.At(data, Json.DeviceId),
                   Json.At(data, Json.DelegationId), Json.At(data, Json.Scopes))
  }
}
