// What the server's token replies become: a reply is read back as the token it
// was built from, and a cached attachment always names the child it belongs to.

module AdoptionTheorems {
  import opened Basics
  import opened Credentials
  import opened AuthHistory
  import opened AuthInvariant
  import Json

  // ---- Token replies -------------------------------------------------------

  /// A well-formed token reply as the control plane builds it.
  function TokenReply(access: string, refresh: string, ttl: Instant, absolute: Option<Instant>): Json.Value {
    var fields := map[Json.AccessToken := Json.Text(access), Json.RefreshToken := Json.Text(refresh),
                      Json.ExpiresInSeconds := Json.Number(ttl)];
    Json.Object(if absolute.Some? then fields[Json.ExpiresAt := Json.Number(absolute.value)] else fields)
  }

  function Earlier(a: nat, b: nat): nat {
    if a <= b then a else b
  }

  lemma TokenRoundTrip(access: string, refresh: string, ttl: Instant, absolute: Option<Instant>, subject: string,
      startedAt: Instant)
    requires access != "" && refresh != "" && ttl > 0 && startedAt + ttl <= MAX_U64
    requires absolute.Some? ==> absolute.value > 0
    ensures ParseToken(TokenReply(access, refresh, ttl, absolute), subject, startedAt)
         == Some(Token(access, refresh, subject,
                       if absolute.Some? then Earlier(startedAt + ttl, absolute.value) else startedAt + ttl))
  {
  }

  // ---- Attachments ---------------------------------------------------------

  predicate BindingsMatch(r: Record) {
    forall o <- r.bindings ::
      o in r.children && r.bindings[o].runnerId == r.children[o].subject && r.bindings[o].org == o
  }

  /// Every cached attachment is for an enrolled organization and names its
  /// runner; an enrollment is only under way where there is no child yet.
  predicate Attached(r: Record) {
    && BindingsMatch(r)
    && (r.pending.Some? && r.pending.value.target.Enroll? ==> r.pending.value.target.org !in r.children)
    && (r.pending.Some? && r.pending.value.superseded.Some? ==>
          (&& r.pending.value.target.BrowserCancel? && !r.pending.value.superseded.value.target.Enroll?
           && r.pending.value.superseded.value.superseded.None?))
  }

  lemma ChildKeepsAttached(r: Record, p: Pending, org: string, data: Json.Value)
    requires Attached(r) && AdoptChild(r, p, org, data).Some?
    ensures var a := AdoptChild(r, p, org, data).value;
      && BindingsMatch(a)
      // Another organization's attachment stays; this one's is the reply's, or none.
      && a.bindings - {org} == r.bindings - {org}
      && (org in a.bindings ==> Reports(data, org, a.bindings[org]))
      && (forall b :: Reports(data, org, b) && b.runnerId == r.children[org].subject ==>
            org in a.bindings && a.bindings[org] == b)
  {
    TokenSubject(data, r.children[org].subject, p.startedAt);
    forall b ensures BindingOf(data, org) == Some(b) <==> Reports(data, org, b) {
      BindingExactly(b, org, Json.At(data, Json.OrganizationId), Json.At(data, Json.RunnerId),
                     Json.At(data, Json.DeviceId), Json.At(data, Json.DelegationId), Json.At(data, Json.Scopes));
    }
    hide ParseToken, PersonaBinding, IsUuid;
  }

  /// A rotation reply that describes this attachment.
  predicate Reports(data: Json.Value, org: string, b: Binding) {
    Describes(b, org, Json.At(data, Json.OrganizationId), Json.At(data, Json.RunnerId), Json.At(data, Json.DeviceId),
              Json.At(data, Json.DelegationId), Json.At(data, Json.Scopes))
  }

  /// An enrollment reply that describes this attachment.
  predicate Enrolls(data: Json.Value, org: string, b: Binding) {
    Describes(b, org, Json.Text(org), Json.At(Json.At(data, Json.Runner), Json.Id), Json.At(data, Json.DeviceId),
              Json.At(Json.At(data, Json.Child), Json.DelegationId), Json.At(Json.At(data, Json.Child), Json.Scopes))
  }

  lemma EnrollmentKeepsAttached(r: Record, p: Pending, org: string, data: Json.Value)
    requires Attached(r) && org !in r.children && AdoptEnrollment(r, p, org, data).Some?
    ensures var a := AdoptEnrollment(r, p, org, data).value;
      && BindingsMatch(a)
      && a.bindings - {org} == r.bindings - {org}
      // The attachment is the reply's if it declares one; otherwise there is none.
      && (if Json.Get(Json.At(data, Json.Child), Json.DelegationId).Some?
          then org in a.bindings && Enrolls(data, org, a.bindings[org])
          else org !in a.bindings)
  {
    var child, runner := Json.At(data, Json.Child), Json.At(data, Json.Runner);
    TokenSubject(child, Json.Field(runner, Json.Id).value, p.startedAt);
    forall b ensures PersonaBinding(org, Json.Text(org), Json.At(runner, Json.Id), Json.At(data, Json.DeviceId),
                                    Json.At(child, Json.DelegationId), Json.At(child, Json.Scopes)) == Some(b)
                     <==> Enrolls(data, org, b) {
      BindingExactly(b, org, Json.Text(org), Json.At(runner, Json.Id), Json.At(data, Json.DeviceId),
                     Json.At(child, Json.DelegationId), Json.At(child, Json.Scopes));
    }
    hide ParseToken, PersonaBinding, IsUuid;
  }

  /// The device is the one that the reply names.
  lemma BootstrapBindsDevice(r: Record, p: Pending, data: Json.Value)
    requires AdoptBootstrap(r, p, data).Some?
    ensures var a := AdoptBootstrap(r, p, data).value;
      && a.device.Some? && Json.Field(Json.At(data, Json.Device), Json.DeviceId) == Some(a.device.value.subject)
      && a == r.(device := a.device, login := None)
  {
    TokenSubject(Json.At(data, Json.Device), Json.Field(Json.At(data, Json.Device), Json.DeviceId).value, p.startedAt);
    hide ParseToken;
  }

  lemma AdoptKeepsAttached(r: Record, data: Json.Value)
    requires Attached(r) && Adopt(r, data).Some?
    ensures Attached(Adopt(r, data).value)
  {
    var p := r.pending.value;
    match p.target
    case ChildRefresh(org) => ChildKeepsAttached(r, p, org, data);
    case Enroll(org) => EnrollmentKeepsAttached(r, p, org, data);
    case Bootstrap => BootstrapBindsDevice(r, p, data);
    case _ =>
    hide AdoptChild, AdoptEnrollment, AdoptBootstrap, SettleResults, RecoveryReference;
  }

  lemma StepKeepsAttached(r: Record, step: Step)
    requires Attached(r) && Next(r, step).Some?
    ensures Attached(Next(r, step).value)
  {
    if step.Adopted? {
      AdoptKeepsAttached(r, step.data);
    }
    hide Adopt, ValidRevocation, NothingToRevoke, PendingGeneration, RecoveryReference, SettleRejections,
      CredentialIdentity;
  }

  predicate StartsAttached(h: History) {
    if h.Boot? then h.cell.Some? ==> Attached(h.cell.value)
    else (h.event.Overwritten? && h.event.cell.Some? ==> Attached(h.event.cell.value)) && StartsAttached(h.past)
  }

  /// A child that was replaced never keeps the attachment of its predecessor.
  lemma {:induction false} AttachmentsFollowChildren(h: History)
    requires Lawful(h) && StartsAttached(h)
    ensures Cell(h).Some? ==> Attached(Cell(h).value)
  {
    if h.Then? {
      AttachmentsFollowChildren(h.past);
      if h.event.Saved? && Cell(h.past).Some? {
        StepKeepsAttached(Cell(h.past).value, h.event.step);
      }
    }
    hide Supported, MayRequest, MayTransmit, Attached;
  }

  // ---- Where the secrets come from -----------------------------------------

  predicate Holds(cell: Option<Record>, t: Token) {
    cell.Some? && (cell.value.device == Some(t) || exists o <- cell.value.children :: cell.value.children[o] == t)
  }

  /// The server handed this token out in its answer to a journaled request.
  predicate IssuedIn(e: Event, t: Token) {
    && e.Transmitted? && e.reply.Accepted? && !e.pending.target.BrowserCancel?
    && CarriedBy(t, TokenPart(e.pending.target, e.reply.data)) && NamedIn(t, e.pending.target, e.reply.data)
  }

  /// The token came with the first record, with a foreign write, or in an answer.
  predicate Issued(h: History, t: Token) {
    match h
    case Boot(cell) => Holds(cell, t)
    case Then(past, e) => Issued(past, t) || IssuedIn(e, t) || (e.Overwritten? && Holds(e.cell, t))
  }

  /// Adoption stores one new token and leaves every other one as it was.
  lemma AdoptionAddsOneToken(r: Record, data: Json.Value, t: Token)
    requires Adopt(r, data).Some? && Holds(Adopt(r, data), t) && !Holds(Some(r), t)
    ensures AdoptedToken(r.pending.value.target, Adopt(r, data).value) == Some(t)
    ensures !r.pending.value.target.BrowserCancel?
  {
    var p, a := r.pending.value, Adopt(r, data).value;
    match p.target
    case DeviceRefresh => AdoptedRotation(r, p, data);
    case ChildRefresh(org) => AdoptedRotation(r, p, data); OtherChildKept(r, a, org, t);
    case Enroll(org) => AdoptedEnrollment(r, p, org, data); OtherChildKept(r, a, org, t);
    case Bootstrap => BootstrapBindsDevice(r, p, data);
    case _ =>
    hide AdoptBootstrap, AdoptDevice, AdoptChild, AdoptEnrollment, SettleResults, RecoveryReference;
  }

  lemma OtherChildKept(r: Record, a: Record, org: string, t: Token)
    requires a.children - {org} == r.children - {org} && a.device == r.device
    requires Holds(Some(a), t) && !Holds(Some(r), t)
    ensures org in a.children && a.children[org] == t
  {
    var o :| o in a.children && a.children[o] == t;
    assert o == org || o in a.children - {org};
  }

  lemma OtherStepsAddNoToken(r: Record, step: Step, t: Token)
    requires Next(r, step).Some? && Holds(Next(r, step), t) && !step.Adopted?
    ensures Holds(Some(r), t)
  {
    hide Adopt, ValidRevocation, NothingToRevoke, PendingGeneration, RecoveryReference, SettleRejections,
      CredentialIdentity, IsNewRequest, IsCancelIntent;
  }

  /// Every token in the store was handed out by the server, access and refresh
  /// secret together, in an answer to a request of its own kind; no step makes
  /// one up, mixes two, or swaps their secrets.
  lemma {:induction false} StoredTokensWereIssued(h: History, t: Token)
    requires Lawful(h) && Holds(Cell(h), t)
    ensures Issued(h, t)
  {
    if h.Then? {
      if Holds(Cell(h.past), t) {
        StoredTokensWereIssued(h.past, t);
      } else if h.event.Saved? && Cell(h.past).Some? {
        var r, step := Cell(h.past).value, h.event.step;
        if step.Adopted? {
          AdoptionAddsOneToken(r, step.data, t);
          AdoptionStoresReply(r, step.data);
          AnswerWasIssued(h, t);
        } else {
          OtherStepsAddNoToken(r, step, t);
        }
      }
    }
    hide Supported, MayRequest, MayTransmit, Adopt, Holds, CarriedBy, NamedIn, IssuedIn;
  }

  lemma AnswerWasIssued(h: History, t: Token)
    requires Lawful(h) && h.Then? && h.event.Saved? && h.event.step.Adopted? && Cell(h.past).Some?
    requires Cell(h.past).value.pending.Some? && !Cell(h.past).value.pending.value.target.BrowserCancel?
    requires AdoptedToken(Cell(h.past).value.pending.value.target, h.event.record) == Some(t)
    requires StoresReply(Cell(h.past).value.pending.value.target, h.event.record, h.event.step.data)
    ensures Issued(h.past, t)
  {
    hide Adopt, MayRequest, MayTransmit, Supply, CarriedBy, NamedIn;
  }

  /// What authorises a call on the wire is the access part of a stored token of
  /// the right owner, never its refresh part.
  lemma BearersAreAccessTokens(h: History)
    requires Lawful(h) && h.Then? && (h.event.Requested? || h.event.Transmitted?) && h.event.bearer.Some?
    ensures Cell(h.past).Some?
    ensures var r := Cell(h.past).value; var b := h.event.bearer.value;
      if h.event.Requested? && h.event.call.SelfCall? then
        && h.event.call.org in r.children
        && b.token == r.children[h.event.call.org].access && b.subject == r.children[h.event.call.org].subject
      else
        r.device.Some? && b.token == r.device.value.access && b.subject == r.device.value.subject
  {
    hide Supply;
  }
}
