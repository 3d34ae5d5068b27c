// What the credential store and the network see. A history is the sequence of
// writes that reached the store and of requests that left the process; it is
// lawful when every event was allowed by the events before it. A crash needs no
// event: every operation starts again from the record in the store, so a lawful
// history may stop anywhere.

module AuthHistory {
  import opened Basics
  import opened Credentials
  import Json

  datatype Bearer = Bearer(token: string, subject: string)

  function BearerOf(t: Token): Bearer {
    Bearer(t.access, t.subject)
  }

  /// The server's answer, or the loss of this process while it waited.
  datatype Reply = Accepted(data: Json.Value) | Refused(retryable: bool) | Lost

  /// Every request that is not the journaled one.
  datatype Call =
    | StartCall(key: string)
    | OrganizationsCall
    | DiscoverCall(org: string, key: string)
    | GrantCall(org: string, key: string)
    | SelfCall(org: string)
    | LogoutCall

  /// Why a record was written.
  datatype Step =
    | Initialized
    | ReceiptBound(key: string, reference: Reference)
    | LoginStarted(base: Record, login: Login)
    | LoginOffered(url: string, transactionId: string, expiresAt: Instant)
    | LoginDeclined
    | CodeReceived(code: string)
    | CancelIntended(intent: Pending)
    | ProfilesListed(profiles: map<string, Profile>)
    | OrgSelected(org: string)
    | UpgradeSaved(org: string, key: string, upgrade: Upgrade)
    | LogoutIntended
    | DeviceRevoked(at: Instant)
    | LogoutCleared
    | Began(request: Pending)
    | RecoveryMarked
    | EnrollDropped
    | Rejected
    | Chained(grant: string, nonce: nat, at: Instant)
    | CancelRefused
    | CancelConfirmed(at: Instant)
    | Adopted(data: Json.Value)

  datatype Event =
    | Saved(step: Step, record: Record)
    | Deleted
    | Transmitted(pending: Pending, recovery: bool, bearer: Option<Bearer>, reply: Reply)
    | Requested(call: Call, bearer: Option<Bearer>, reply: Reply)
    | Overwritten(cell: Option<Record>)  // by someone other than the lock holder

  datatype History = Boot(cell: Option<Record>) | Then(past: History, event: Event)

  /// The record in the store at the end of a history.
  function Cell(h: History): Option<Record> {
    match h
    case Boot(cell) => cell
    case Then(past, event) =>
      match event
      case Saved(_, record) => Some(record)
      case Deleted => None
      case Overwritten(cell) => cell
      case _ => Cell(past)
  }

  /// `p` is an initial part of `h`.
  predicate Prefix(p: History, h: History) {
    p == h || (h.Then? && Prefix(p, h.past))
  }

  lemma {:induction false} PrefixTransitive(a: History, b: History, c: History)
    requires Prefix(a, b) && Prefix(b, c)
    ensures Prefix(a, c)
  {
    if b != c {
      PrefixTransitive(a, b, c.past);
    }
  }

  // ---- The journaled request on the wire -----------------------------------

  datatype Message = Message(route: Route, body: Body, recovery: bool)

  /// What `transmit` posts: the stored route and body, plus the recovery flag.
  function MessageOf(e: Event): Message
    requires e.Transmitted?
  {
    Message(e.pending.route, e.pending.body, e.recovery)
  }

  /// The random value that tells one journaled request from every other one:
  /// the nonce of its proof, or, for an enrollment, its generation.
  function Stamp(p: Pending): nat {
    match ProofNonce(p.body)
    case Some(nonce) => nonce
    case None => if p.generation.Some? && p.generation.value.Random? then p.generation.value.value else 0
  }

  function ProofNonce(body: Body): Option<nat> {
    match body
    case ExchangeBody(_, _, _, _, proof) => Some(proof.nonce)
    case BootstrapBody(_, proof) => Some(proof.nonce)
    case CancelBody(_, _, proof, _) => Some(proof.nonce)
    case RefreshBody(_, proof) => Some(proof.nonce)
    case EnrollBody(_) => None
  }

  /// The part of a journaled request that no later write may change.
  function Core(p: Pending): Pending {
    p.(recoveryUsed := false)
  }

  /// One more than every stamp in a request and in those it displaced.
  function PendingSupply(p: Pending): nat {
    var own := Stamp(p) + 1;
    if p.superseded.Some? && PendingSupply(p.superseded.value) > own then PendingSupply(p.superseded.value) else own
  }

  function RecordSupply(cell: Option<Record>): nat {
    if cell.Some? && cell.value.pending.Some? then PendingSupply(cell.value.pending.value) else 0
  }

  /// One more than every stamp seen so far; fresh random values start here.
  function Supply(h: History): nat {
    match h
    case Boot(cell) => RecordSupply(cell)
    case Then(past, event) =>
      var before := Supply(past);
      var now := match event
        case Saved(_, record) => RecordSupply(Some(record))
        case Overwritten(cell) => RecordSupply(cell)
        case _ => 0;
      if now > before then now else before
  }

  // ---- Adoption ------------------------------------------------------------

  predicate OpenFor(receipt: Receipt, reference: Reference) {
    receipt.reference == reference && !receipt.Settled()
  }

  function SettleResults(receipts: map<string, Receipt>, reference: Reference, result: Reconciled): map<string,
      Receipt> {
    map k | k in receipts ::
      if OpenFor(receipts[k], reference) then receipts[k].(result := Some(result)) else receipts[k]
  }

  function SettleRejections(receipts: map<string, Receipt>, reference: Reference): map<string, Receipt> {
    map k | k in receipts ::
      if OpenFor(receipts[k], reference) then receipts[k].(rejection := Some(RecoveryRejected))
      else receipts[k]
  }

  function AdoptBootstrap(r: Record, p: Pending, data: Json.Value): Option<Record> {
    var device := Json.At(data, Json.Device);
    var id := Json.Field(device, Json.DeviceId);
    if id.None? then None else
    var token := ParseToken(device, id.value, p.startedAt);
    if token.None? then None else Some(r.(device := token, login := None))
  }

  function AdoptDevice(r: Record, p: Pending, data: Json.Value): Option<Record> {
    if r.device.None? then None else
    var token := ParseToken(data, r.device.value.subject, p.startedAt);
    if token.None? then None else Some(r.(device := token))
  }

  /// Rotation keeps the child's subject; an attachment is kept only if it names it.
  function AdoptChild(r: Record, p: Pending, org: string, data: Json.Value): Option<Record> {
    if org !in r.children then None else
    var subject := r.children[org].subject;
    var token := ParseToken(data, subject, p.startedAt);
    if token.None? then None else
    var attached := if Json.At(data, Json.DeviceId).Text? then BindingOf(data, org) else None;
    var bindings := r.bindings - {org};
    Some(r.(children := r.children[org := token.value],
            bindings := if attached.Some? && attached.value.runnerId == subject
                        then bindings[org := attached.value] else bindings))
  }

  function AdoptEnrollment(r: Record, p: Pending, org: string, data: Json.Value): Option<Record> {
    var child := Json.At(data, Json.Child);
    var runner := Json.At(data, Json.Runner);
    var id := Json.Field(runner, Json.Id);
    var declared := Json.Get(child, Json.DelegationId).Some?;
    var attached := PersonaBinding(org, Json.Text(org), Json.At(runner, Json.Id), Json.At(data, Json.DeviceId),
                                   Json.At(child, Json.DelegationId), Json.At(child, Json.Scopes));
    if (declared && attached.None?) || Json.Get(data, Json.Child).None? || id.None? then None else
    var token := ParseToken(child, id.value, p.startedAt);
    if token.None? then None else
    Some(r.(children := r.children[org := token.value],
            bindings := if declared then r.bindings[org := attached.value] else r.bindings))
  }

  /// The token part of adopting an accepted reply; absent when it is malformed.
  function AdoptCredentials(r: Record, p: Pending, data: Json.Value): Option<Record> {
    match p.target
    case BrowserExchange => None
    case BrowserCancel => if Json.At(data, Json.Canceled) == Json.Bool(true) then Some(r.(login := None)) else None
    case Bootstrap => AdoptBootstrap(r, p, data)
    case DeviceRefresh => AdoptDevice(r, p, data)
    case ChildRefresh(org) => AdoptChild(r, p, org, data)
    case Enroll(org) => AdoptEnrollment(r, p, org, data)
  }

  /// Adoption clears the journaled request and settles its receipts at once.
  function Adopt(r: Record, data: Json.Value): Option<Record> {
    if r.pending.None? then None else
    var adopted := AdoptCredentials(r, r.pending.value, data);
    if adopted.None? then None else
    var a := adopted.value.(pending := None);
    var reference := RecoveryReference(r).value;
    Some(a.(recoveries := SettleResults(a.recoveries, reference,
                                        Reconciled(a.device.Some?, a.active, Some(reference)))))
  }

  // ---- The record each step writes -----------------------------------------

  function BootstrapRequest(r: Record, exchange: Pending, grant: string, nonce: nat, at: Instant): Pending {
    Pending(Bootstrap, RouteOf(Bootstrap), BootstrapBody(grant, Proof(r.privateKey, ProveBootstrap, grant, nonce)),
            Some(PendingGeneration(r, exchange)), at, false, None)
  }

  /// A signature by this installation over this secret.
  predicate Proves(r: Record, proof: Proof, purpose: Purpose, secret: string) {
    proof.key == r.privateKey && proof.purpose == purpose && proof.secret == secret
  }

  /// The body is the one that this record's own material yields for the target.
  predicate FitsRecord(r: Record, target: Target, body: Body) {
    match target
    case BrowserExchange =>
      && r.login.Some? && r.login.value.receivedCode.Some? && body.ExchangeBody?
      && body.code == r.login.value.receivedCode.value && body.transactionId == r.login.value.transactionId
      && body.codeVerifier == r.login.value.codeVerifier && body.redirectUri == r.login.value.redirectUri
      && Proves(r, body.proof, ProveExchange, body.code)
    case DeviceRefresh =>
      && !r.logoutPending && r.device.Some? && body.RefreshBody? && body.refreshToken == r.device.value.refresh
      && Proves(r, body.proof, ProveDeviceRefresh, body.refreshToken)
    case ChildRefresh(org) =>
      && !r.logoutPending && org in r.children && body.RefreshBody? && body.refreshToken == r.children[org].refresh
      && Proves(r, body.proof, ProveRefresh, body.refreshToken)
    case Enroll(org) =>
      !r.logoutPending && r.device.Some? && org !in r.children && body.EnrollBody?
    case _ => false
  }

  predicate IsNewRequest(r: Record, p: Pending) {
    && p.route == RouteOf(p.target)
    && FitsRecord(r, p.target, p.body)
    && !p.recoveryUsed
    && p.generation.Some? && p.generation.value.Random?
    && p.superseded.None?
  }

  predicate IsCancelIntent(r: Record, p: Pending) {
    && p.target.BrowserCancel? && p.route == RouteOf(BrowserCancel) && p.body.CancelBody?
    && !p.recoveryUsed && p.generation.None?
    && r.device.None? && BrowserStarted(r) && p.body.transactionId == r.login.value.transactionId
    && r.login.value.browserState == Some(p.body.browserState)
    && Proves(r, p.body.proof, if p.body.revokeApproved then ProveCancelRecovery else ProveCancel, p.body.browserState)
    && (r.pending.Some? || r.login.value.receivedCode.Some? ==> p.body.revokeApproved)
    && (r.pending.Some? ==> r.pending.value.target.BrowserExchange? || r.pending.value.target.Bootstrap?)
    && p.superseded == r.pending
  }

  predicate UpgradeMayFollow(r: Record, org: string, key: string, u: Upgrade) {
    if (org, key) in r.upgrades then
      var prior := r.upgrades[(org, key)];
      && u.requested == prior.requested
      && u.binding.SameAttachment(prior.binding)
      && (prior.phase.GrantPending? ==> u.phase.Denied? || u.phase.RefreshPending?)
      && (prior.phase.RefreshPending? ==> u.phase.Verified?)
      && !prior.phase.Verified? && !prior.phase.Denied?
    else
      u.phase.GrantPending?
  }

  function BindReceipt(r: Record, key: string, reference: Reference): Option<Record> {
    if key in r.recoveries || !reference.WellFormed() then None else
    var mismatch := if RecoveryReference(r) == Some(reference) then None else Some(ReferenceMismatch);
    Some(r.(recoveries := r.recoveries[key := Receipt(r.installationId, reference, None, mismatch)]))
  }

  function StartLogin(r: Record, login: Login): Option<Record> {
    if r.logoutPending || r.pending.Some? || r.device.Some? then None
    else Some(r.(revocation := None, login := Some(login)))
  }

  function OfferLogin(r: Record, url: string, transactionId: string, expiresAt: Instant): Option<Record> {
    if r.login.None? then None
    else Some(r.(login := Some(r.login.value.(authorizationUrl := Some(url), transactionId := Some(transactionId),
                                              expiresAt := expiresAt))))
  }

  function ReceiveCode(r: Record, code: string): Option<Record> {
    if r.login.None? || r.login.value.receivedCode.Some? then None
    else Some(r.(login := Some(r.login.value.(receivedCode := Some(code)))))
  }

  function SelectOrg(r: Record, org: string): Option<Record> {
    if org !in r.children then None else
    var profile := if org in r.profiles then r.profiles[org].(enrolled := true) else Profile(None, None, true);
    Some(r.(profiles := r.profiles[org := profile], active := Some(org)))
  }

  function SaveUpgrade(r: Record, org: string, key: string, u: Upgrade): Option<Record> {
    if r.device.Some? && org in r.children && UpgradeMayFollow(r, org, key, u)
    then Some(r.(upgrades := r.upgrades[(org, key) := u])) else None
  }

  function RevokeDevice(r: Record, at: Instant): Option<Record> {
    if r.logoutPending && r.device.Some? && at > 0
    then Some(r.(revocation := Some(Evidence(CredentialIdentity(r), DeviceLogout, at)))) else None
  }

  function BeginRequest(r: Record, p: Pending): Option<Record> {
    if r.pending.None? && IsNewRequest(r, p) then Some(r.(revocation := None, pending := Some(p))) else None
  }

  function IntendCancel(r: Record, p: Pending): Option<Record> {
    if IsCancelIntent(r, p) then Some(r.(pending := Some(p))) else None
  }

  function MarkRecovery(r: Record): Option<Record> {
    if r.pending.None? then None else Some(r.(pending := Some(r.pending.value.(recoveryUsed := true))))
  }

  function DropEnroll(r: Record): Option<Record> {
    if r.pending.Some? && r.pending.value.target.Enroll? then Some(r.(pending := None)) else None
  }

  /// A definite rejection settles the receipts; only an enrollment is forgotten.
  function Reject(r: Record): Option<Record> {
    if r.pending.None? then None else
    var settled := r.(recoveries := SettleRejections(r.recoveries, RecoveryReference(r).value));
    Some(if r.pending.value.target.Enroll? then settled.(pending := None) else settled)
  }

  function Chain(r: Record, grant: string, nonce: nat, at: Instant): Option<Record> {
    if r.pending.Some? && r.pending.value.target.BrowserExchange?
    then Some(r.(pending := Some(BootstrapRequest(r, r.pending.value, grant, nonce, at)))) else None
  }

  function RefuseCancel(r: Record): Option<Record> {
    if r.pending.Some? && r.pending.value.target.BrowserCancel?
    then Some(r.(pending := r.pending.value.superseded)) else None
  }

  function ConfirmCancel(r: Record, at: Instant): Option<Record> {
    if r.pending.Some? && r.pending.value.target.BrowserCancel? && r.logoutPending && at > 0
    then Some(r.(revocation := Some(Evidence(CredentialIdentity(r), CancelledInBrowser, at)))) else None
  }

  function ClearLogout(r: Record): Option<Record> {
    if ValidRevocation(r) || NothingToRevoke(r) then Some(LoggedOut(r)) else None
  }

  /// The record that a step writes over `r`; absent when the step is not allowed there.
  function Next(r: Record, step: Step): Option<Record> {
    match step
    case Initialized => None
    case ReceiptBound(key, reference) => BindReceipt(r, key, reference)
    case LoginStarted(_, login) => StartLogin(r, login)
    case LoginOffered(url, transactionId, expiresAt) => OfferLogin(r, url, transactionId, expiresAt)
    case LoginDeclined => if r.login.None? then None else Some(r.(login := None))
    case CodeReceived(code) => ReceiveCode(r, code)
    case CancelIntended(p) => IntendCancel(r, p)
    case ProfilesListed(profiles) => if r.device.None? then None else Some(r.(profiles := profiles))
    case OrgSelected(org) => SelectOrg(r, org)
    case UpgradeSaved(org, key, u) => SaveUpgrade(r, org, key, u)
    case LogoutIntended => if ValidRevocation(r) then None else Some(r.(logoutPending := true))
    case DeviceRevoked(at) => RevokeDevice(r, at)
    case LogoutCleared => ClearLogout(r)
    case Began(p) => BeginRequest(r, p)
    case RecoveryMarked => MarkRecovery(r)
    case EnrollDropped => DropEnroll(r)
    case Rejected => Reject(r)
    case Chained(grant, nonce, at) => Chain(r, grant, nonce, at)
    case CancelRefused => RefuseCancel(r)
    case CancelConfirmed(at) => ConfirmCancel(r, at)
    case Adopted(data) => Adopt(r, data)
  }

  // ---- What earlier events each step needs ---------------------------------

  /// The last event is the answer to the request journaled in `r`.
  predicate Answered(h: History, r: Record) {
    h.Then? && h.event.Transmitted? && r.pending == Some(h.event.pending)
  }

  predicate AnsweredWith(h: History, r: Record, data: Json.Value) {
    Answered(h, r) && h.event.reply == Accepted(data)
  }

  predicate AnswersCall(h: History, call: Call) {
    h.Then? && h.event.Requested? && h.event.call == call && h.event.reply.Accepted?
  }

  /// What a start reply offers; a flow that is decided already has no time left.
  predicate Offers(data: Json.Value, url: string, transactionId: string, expiresAt: Instant) {
    && url != "" && Json.At(data, Json.AuthorizationPath) == Json.Text(url)
    && transactionId != "" && Json.At(data, Json.TransactionId) == Json.Text(transactionId)
    && Json.AsU64(Json.At(data, Json.ExpiresAt)).Some?
    && (var status := Json.Get(data, Json.Status);
        if status == None || status == Some(Json.Text("pending")) then
          Json.At(data, Json.ExpiresAt) == Json.Number(expiresAt)
        else
          expiresAt == 0 && status.value.Text?
          && status.value.text in {"approved", "consumed", "denied", "revoked", "expired"})
  }

  /// What a discovery reply attaches to the record's own runner and device.
  predicate Discovers(r: Record, org: string, data: Json.Value, u: Upgrade) {
    && r.device.Some? && org in r.children && u.binding.org == org
    && u.binding.runnerId == r.children[org].subject && u.binding.deviceId == r.device.value.subject
    && Json.At(Json.At(data, Json.Runner), Json.Id) == Json.Text(u.binding.runnerId)
    && u.binding.delegationId != ""
    && Json.At(Json.At(data, Json.Child), Json.DelegationId) == Json.Text(u.binding.delegationId)
    && (Json.Get(data, Json.DeviceId).Some? ==> Json.At(data, Json.DeviceId) == Json.Text(u.binding.deviceId))
  }

  /// A grant receipt for exactly the journaled attachment and request.
  predicate Receipts(data: Json.Value, u: Upgrade) {
    && Json.At(data, Json.DeviceId) == Json.Text(u.binding.deviceId)
    && Json.At(data, Json.RunnerId) == Json.Text(u.binding.runnerId)
    && Json.At(data, Json.DelegationId) == Json.Text(u.binding.delegationId)
    && Json.At(data, Json.OrganizationId) == Json.Text(u.binding.org)
    && Texts(Json.At(data, Json.RequestedScopes)) == Some(u.requested)
  }

  /// The verdict that a receipt gives on an upgrade: `v` is what is journaled for it.
  predicate Decides(data: Json.Value, u: Upgrade, v: Upgrade) {
    && Receipts(data, u) && v == u.(phase := v.phase, binding := u.binding.(scopes := v.binding.scopes))
    && (v.phase.Denied? || v.phase.RefreshPending?)
    && (v.phase.Denied? ==>
          (&& Json.At(data, Json.Status) == Json.Text("denied")
           && var granted := Texts(Json.At(data, Json.GrantedScopes));
              v.binding.scopes == if granted.Some? then granted.value else []))
    && (v.phase.RefreshPending? ==>
          (&& Json.At(data, Json.Status) == Json.Text("granted")
           && Json.At(data, Json.RefreshRequired) == Json.Bool(true) && v.binding == u.binding))
  }

  predicate Supported(past: History, r: Record, step: Step) {
    match step
    case LoginStarted(base, _) => base == r
    case LoginOffered(url, transactionId, expiresAt) =>
      && r.login.Some? && AnswersCall(past, StartCall(r.login.value.key))
      && Offers(past.event.reply.data, url, transactionId, expiresAt)
    case ProfilesListed(_) => AnswersCall(past, OrganizationsCall)
    case CancelIntended(p) => Stamp(p) >= Supply(past)
    case Began(p) => Stamp(p) >= Supply(past)
    case UpgradeSaved(org, key, u) =>
      (match u.phase
       case GrantPending => AnswersCall(past, DiscoverCall(org, key)) && Discovers(r, org, past.event.reply.data, u)
       case Verified => AnswersCall(past, SelfCall(org))
       case _ =>
         && AnswersCall(past, GrantCall(org, key)) && (org, key) in r.upgrades
         && Decides(past.event.reply.data, r.upgrades[(org, key)], u))
    case DeviceRevoked(_) =>
      && AnswersCall(past, LogoutCall) && Json.At(past.event.reply.data, Json.Revoked) == Json.Bool(true)
      && r.device.Some? && past.event.bearer == Some(BearerOf(r.device.value))
    case EnrollDropped => past.Then? && past.event.Saved? && Installs(past.event.step)
    case Rejected => Answered(past, r) && past.event.reply == Refused(false)
    case Chained(grant, nonce, _) =>
      && nonce >= Supply(past) && Answered(past, r) && past.event.reply.Accepted?
      && Json.Field(past.event.reply.data, Json.BootstrapGrant) == Some(grant)
    case CancelRefused =>
      && Answered(past, r) && past.event.reply.Accepted?
      && Json.At(past.event.reply.data, Json.Canceled) != Json.Bool(true)
    case CancelConfirmed(_) =>
      && Answered(past, r) && past.event.reply.Accepted?
      && Json.At(past.event.reply.data, Json.Canceled) == Json.Bool(true)
    case Adopted(data) =>
      if r.pending.Some? && r.pending.value.target.BrowserCancel? && r.logoutPending then
        past.Then? && past.event.Saved? && past.event.step.CancelConfirmed? && AnsweredWith(past.past, r, data)
      else
        AnsweredWith(past, r, data)
    case _ => true
  }

  predicate Permitted(past: History, step: Step, next: Record) {
    match Cell(past)
    case None =>
      || (step.Initialized? && next == Fresh(next.installationId, next.privateKey))
      || (step.LoginStarted? && step.base == Fresh(step.base.installationId, step.base.privateKey)
          && Next(step.base, step) == Some(next))
    case Some(r) => Next(r, step) == Some(next) && Supported(past, r, step)
  }

  predicate Installs(step: Step) {
    step.Began? || step.CancelIntended? || step.Chained?
  }

  predicate MayTransmit(past: History, p: Pending, recovery: bool, bearer: Option<Bearer>) {
    && Cell(past).Some? && Cell(past).value.pending == Some(p)
    && past.Then? && past.event.Saved?
    && (if recovery then past.event.step.RecoveryMarked? else Installs(past.event.step))
    && bearer == (if p.target.Enroll? && Cell(past).value.device.Some?
                  then Some(BearerOf(Cell(past).value.device.value)) else None)
  }

  predicate MayRequest(past: History, call: Call, bearer: Option<Bearer>) {
    Cell(past).Some? &&
    var r := Cell(past).value;
    match call
    case StartCall(key) => bearer.None? && r.login.Some? && r.login.value.key == key && !r.logoutPending
    case SelfCall(org) => !r.logoutPending && org in r.children && bearer == Some(BearerOf(r.children[org]))
    case GrantCall(org, key) =>
      && !r.logoutPending && r.device.Some? && bearer == Some(BearerOf(r.device.value))
      && (org, key) in r.upgrades && r.upgrades[(org, key)].phase.GrantPending?
    case LogoutCall =>
      r.logoutPending && r.device.Some? && bearer == Some(BearerOf(r.device.value)) && !ValidRevocation(r)
    case _ => !r.logoutPending && r.device.Some? && bearer == Some(BearerOf(r.device.value))
  }

  predicate LawfulEvent(past: History, e: Event) {
    match e
    case Saved(step, record) => Permitted(past, step, record)
    case Deleted => past.Then? && past.event.Saved? && past.event.step.LogoutCleared?
    case Transmitted(p, recovery, bearer, _) => MayTransmit(past, p, recovery, bearer)
    case Requested(call, bearer, _) => MayRequest(past, call, bearer)
    case Overwritten(_) => true
  }

  predicate Lawful(h: History) {
    h.Then? ==> Lawful(h.past) && LawfulEvent(h.past, h.event)
  }
}
