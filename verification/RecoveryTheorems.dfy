// Recovery references, token lifetimes, drift of the stored record while a
// request is in flight, and the additive scope grants.

module RecoveryTheorems {
  import opened Basics
  import opened Credentials
  import opened AuthHistory
  import opened AuthInvariant
  import opened AuthTheorems
  import AuthOutcomes
  import Json

  // ---- The recovery reference ----------------------------------------------

  /// Requests from before generations existed are told apart by exactly what they
  /// are: two of them share a reference if and only if they agree in everything
  /// but the recovery mark and the request they displaced.
  lemma LegacyReferences(r: Record, p: Pending, q: Pending)
    requires OwnsNoGeneration(r, p) && OwnsNoGeneration(r, q)
    ensures ReferenceOf(r, p) == ReferenceOf(r, q) <==> SameRequest(p, q)
  {
    var a, b := r.(pending := Some(p)), r.(pending := Some(q));
    assert BrowserGeneration(a) == BrowserGeneration(r) && BrowserGeneration(b) == BrowserGeneration(r);
  }

  /// The reference of the record while it stores `p`.
  function ReferenceOf(r: Record, p: Pending): Option<Reference> {
    RecoveryReference(r.(pending := Some(p)))
  }

  /// The request names no generation, nor does a received code name it for it.
  predicate OwnsNoGeneration(r: Record, p: Pending) {
    p.generation.None? && (BrowserGeneration(r).Some? ==> !OfSignIn(p))
  }

  predicate SameRequest(p: Pending, q: Pending) {
    p.target == q.target && p.route == q.route && p.body == q.body && p.startedAt == q.startedAt
  }

  predicate OfSignIn(p: Pending) {
    p.target.BrowserExchange? || p.target.Bootstrap?
  }

  /// The reference is derived from a received code.
  predicate ByCode(r: Record) {
    r.login.Some? && r.login.value.receivedCode.Some? && (r.pending.Some? ==> OfSignIn(r.pending.value))
  }

  /// The reference is derived from the generation that the pending request was given.
  predicate ByGeneration(r: Record) {
    && r.pending.Some? && r.pending.value.generation.Some?
    && (OfSignIn(r.pending.value) ==> r.login.None? || r.login.value.receivedCode.None?)
  }

  predicate SameInstallation(r: Record, s: Record) {
    r.installationId == s.installationId && r.privateKey == s.privateKey
  }

  predicate SameCode(a: Login, b: Login) {
    a.key == b.key && a.flowId == b.flowId && a.transactionId == b.transactionId && a.receivedCode == b.receivedCode
  }

  /// Two records of a received code share a reference exactly when installation,
  /// key, flow, transaction and code agree, whatever is pending for the code.
  lemma CodeReferences(r: Record, s: Record)
    requires ByCode(r) && ByCode(s)
    ensures RecoveryReference(r).Some?
    ensures RecoveryReference(r) == RecoveryReference(s) <==>
      SameInstallation(r, s) && SameCode(r.login.value, s.login.value)
  {
  }

  /// Other requests share one exactly when installation and generation agree; a
  /// fresh generation is never mistaken for a code.
  lemma GenerationReferences(r: Record, s: Record)
    requires ByGeneration(r) && r.pending.value.generation.value.Random?
    ensures ByGeneration(s) ==>
      (RecoveryReference(r) == RecoveryReference(s) <==>
        SameInstallation(r, s) && r.pending.value.generation == s.pending.value.generation)
    ensures ByCode(s) ==> RecoveryReference(r) != RecoveryReference(s)
  {
  }

  /// A received code and the exchange that redeems it share one reference.
  lemma ExchangeKeepsReference(r: Record, p: Pending)
    requires BeginRequest(r, p).Some? && p.target.BrowserExchange?
    ensures RecoveryReference(BeginRequest(r, p).value) == RecoveryReference(r)
    ensures RecoveryReference(r).Some?
  {
  }

  /// The bootstrap inherits the reference of the exchange it follows.
  lemma ChainKeepsReference(r: Record, grant: string, nonce: nat, at: Instant)
    requires Chain(r, grant, nonce, at).Some?
    ensures RecoveryReference(Chain(r, grant, nonce, at).value) == RecoveryReference(r)
  {
  }

  lemma MarkKeepsReference(r: Record)
    requires MarkRecovery(r).Some?
    ensures RecoveryReference(MarkRecovery(r).value) == RecoveryReference(r)
  {
  }

  /// A cancellation never shares the reference of the operation it displaces.
  lemma CancelChangesReference(r: Record, p: Pending)
    requires Sound(r) && r.pending.Some? && IntendCancel(r, p).Some?
    ensures RecoveryReference(IntendCancel(r, p).value).Some?
    ensures RecoveryReference(IntendCancel(r, p).value) != RecoveryReference(r)
  {
    hide Stamp;
  }

  /// A refused cancellation brings back the displaced request itself, and with
  /// it the reference, exactly when the sign-in still yields the same generation.
  lemma RefusedCancelRestores(r: Record, p: Pending, s: Record)
    requires IntendCancel(r, p).Some?
    requires s.privateKey == r.privateKey && s.installationId == r.installationId
    requires s.pending.Some? && Core(s.pending.value) == Core(p)
    ensures RefuseCancel(s).Some? && Restores(r, RefuseCancel(s).value)
  {
    GenerationAfterRefusal(s, p);
    if r.pending.Some? {
      GenerationAfterRefusal(s, r.pending.value);
    }
    hide Stamp;
  }

  /// `s` holds the request of `r` again, and refers to it as `r` did exactly when
  /// it derives the same generation for it.
  predicate Restores(r: Record, s: Record) {
    && s.pending == r.pending
    && (RecoveryReference(s) == RecoveryReference(r) <==>
          if r.pending.Some? then PendingGeneration(s, r.pending.value) == PendingGeneration(r, r.pending.value)
          else BrowserGeneration(s) == BrowserGeneration(r))
    && (BrowserGeneration(s) == BrowserGeneration(r) ==> RecoveryReference(s) == RecoveryReference(r))
  }

  /// A request that is stored now and is older than the end of `p` was stored all
  /// the way: nothing deleted the record, and it is the same request.
  lemma {:induction false} StoredThroughout(p: History, h: History, q: Pending) returns (was: Pending)
    requires Lawful(h) && Undisturbed(h) && Prefix(p, h) && HeldBy(Cell(h), q) && Stamp(q) < Supply(p)
    ensures Continuous(p, h) && HeldBy(Cell(p), was) && Core(was) == Core(q)
  {
    if p == h {
      return q;
    }
    var earlier := EarlierStored(h, q, p);
    was := StoredThroughout(p, h.past, earlier);
    hide Stamp, Supply, LawfulEvent, Sound, Core, HeldBy;
  }

  /// One event back: a request with an old stamp was stored before this event as well.
  lemma EarlierStored(h: History, q: Pending, p: History) returns (earlier: Pending)
    requires h.Then? && Lawful(h) && Undisturbed(h) && Prefix(p, h.past) && HeldBy(Cell(h), q) && Stamp(q) < Supply(p)
    ensures !h.event.Deleted? && !h.event.Overwritten? && Lawful(h.past) && Undisturbed(h.past)
    ensures HeldBy(Cell(h.past), earlier) && Core(earlier) == Core(q) && Stamp(earlier) == Stamp(q)
  {
    SupplyGrows(p, h.past);
    if !h.event.Saved? || HeldBy(Cell(h.past), q) {
      return q;
    }
    FirstRecordHoldsNothing(h);
    StructuralInvariant(h.past);
    SavedStep(h);
    StepHolds(h.past, Cell(h.past).value, h.event.step, q);
    earlier := Cell(h.past).value.pending.value;
    SameCoreSameStamp(earlier, q);
    hide Next, Supported, LawfulEvent, Supply, Sound, Stamp, Core;
  }

  lemma SavedStep(h: History)
    requires Lawful(h) && h.Then? && h.event.Saved? && Cell(h.past).Some?
    ensures Next(Cell(h.past).value, h.event.step) == Cell(h) && Supported(h.past, Cell(h.past).value, h.event.step)
  {
    hide Next, Supported;
  }

  lemma SameCoreSameStamp(p: Pending, q: Pending)
    requires Core(p) == Core(q)
    ensures Stamp(p) == Stamp(q)
  {
  }

  lemma FirstRecordHoldsNothing(h: History)
    requires Lawful(h) && h.Then? && h.event.Saved?
    ensures Cell(h.past).None? ==> h.event.record.pending.None?
  {
    hide Supply;
  }

  lemma IntentIsStored(h: History)
    requires Lawful(h) && h.Then? && h.event.Saved? && h.event.step.CancelIntended?
    ensures Cell(h.past).Some? && IntendCancel(Cell(h.past).value, h.event.step.intent).Some?
    ensures Cell(h).Some? && Cell(h).value.pending == Some(h.event.step.intent)
    ensures HeldBy(Cell(h), h.event.step.intent) && Held(h, h.event.step.intent)
    ensures Stamp(h.event.step.intent) < Supply(h)
  {
    assert HeldBy(Cell(h), h.event.step.intent);
    HeldBelowSupply(h, h.event.step.intent);
    hide Supply, Stamp, IsCancelIntent, Held;
  }

  lemma RefusedRecord(h: History)
    requires Lawful(h) && h.Then? && h.event.Saved? && h.event.step.CancelRefused? && Cell(h.past).Some?
    ensures RefuseCancel(Cell(h.past).value) == Cell(h)
  {
    hide Supply, RefuseCancel;
  }

  lemma GenerationAfterRefusal(s: Record, p: Pending)
    requires RefuseCancel(s).Some?
    ensures PendingGeneration(RefuseCancel(s).value, p) == PendingGeneration(s, p)
    ensures BrowserGeneration(RefuseCancel(s).value) == BrowserGeneration(s)
  {
  }

  predicate IntendsCancel(h: History) {
    h.Then? && h.event.Saved? && h.event.step.CancelIntended?
  }

  /// The last event refuses the stored cancellation, which is the request `intent`.
  predicate RefusesCancel(h: History, intent: Pending) {
    && h.Then? && h.event.Saved? && h.event.step.CancelRefused?
    && Cell(h.past).Some? && Cell(h.past).value.pending.Some?
    && Stamp(Cell(h.past).value.pending.value) == Stamp(intent)
  }

  /// Journaled in one run and refused in another, however many crashes and
  /// recoveries lie between: a refused cancellation brings back exactly the
  /// operation it displaced, and its reference exactly when the sign-in that the
  /// operation belongs to still yields the same generation.
  lemma RefusalRestoresDisplaced(intended: History, h: History)
    requires Lawful(h) && Undisturbed(h) && IntendsCancel(intended)
    requires RefusesCancel(h, intended.event.step.intent) && Prefix(intended, h.past)
    ensures Continuous(intended.past, h) && Cell(intended.past).Some? && Cell(h).Some?
    ensures Restores(Cell(intended.past).value, Cell(h).value)
  {
    var p := intended.event.step.intent;
    var q := Cell(h.past).value.pending.value;
    PrefixLawful(intended, h);
    IntentIsStored(intended);
    assert HeldBy(Cell(h.past), q);
    var was := StoredThroughout(intended, h.past, q);
    PrefixHeld(intended, h.past, p);
    assert Held(h.past, q);
    SameStampSameRequest(h.past, p, q);
    assert Continuous(intended.past, intended);
    AuthOutcomes.ContinuousTransitive(intended.past, intended, h.past);
    InstallationIdStable(intended.past, h);
    RefusedCancelRestores(Cell(intended.past).value, p, Cell(h.past).value);
    RefusedRecord(h);
    hide Stamp, Supply, LawfulEvent, Sound, HeldBy, Core, IntendCancel, RefuseCancel;
  }

  /// Declining a sign-in whose exchange is already journaled changes the
  /// reference of that exchange, because the code it was derived from is gone.
  /// Everything else keeps it, in particular a bootstrap, which stored its own.
  lemma DeclineAndReference(r: Record)
    requires r.login.Some? && r.pending.Some?
    ensures var declined := r.(login := None);
      RecoveryReference(declined) == RecoveryReference(r) <==>
        || BrowserGeneration(r).None?
        || !(r.pending.value.target.BrowserExchange? || r.pending.value.target.Bootstrap?)
        || r.pending.value.generation == BrowserGeneration(r)
  {
  }

  /// A callback that the code accepts at any time before the end of the clock.
  lemma DeclineChangesReference() returns (r: Record)
    ensures Sound(r) && Next(r, LoginDeclined).Some?
    ensures AuthOutcomes.CallbackMatches(r, "f", "s") && 1 < r.login.value.expiresAt
    ensures RecoveryReference(Next(r, LoginDeclined).value) != RecoveryReference(r)
  {
    var login := Login("k", "n", "f", MAX_U64, Some("u"), Some("t"), Some("u"), Some("s"), Some("v"), Some("c"));
    var body := ExchangeBody(Some("t"), "c", Some("v"), Some("u"), Proof(7, ProveExchange, "c", 1));
    var p := Pending(BrowserExchange, ExchangeRoute, body, Some(Random(2)), 1, false, None);
    r := Fresh("i", 7).(login := Some(login), pending := Some(p));
    assert BrowserGeneration(r).Some?;
  }

  // ---- A restarted sign-in -------------------------------------------------

  /// An offer renames the transaction, and with it the generation of a code that
  /// was already received for another one.
  lemma OfferAndReference(r: Record, url: string, transaction: string, expiresAt: Instant)
    requires r.login.Some?
    ensures RecoveryReference(OfferLogin(r, url, transaction, expiresAt).value) == RecoveryReference(r) <==>
      || BrowserGeneration(r).None?
      || (r.pending.Some? && !OfSignIn(r.pending.value))
      || r.login.value.transactionId == Some(transaction)
  {
    assert BrowserGeneration(OfferLogin(r, url, transaction, expiresAt).value).Some? <==> BrowserGeneration(r).Some?;
  }

  /// `login` under the same key restarts a lapsed flow and keeps its code. The
  /// reference survives exactly when the server names the same transaction again.
  lemma RestartAndReference(r: Record, url: string, transaction: string, expiresAt: Instant)
    requires BrowserGeneration(r).Some? && StartLogin(r, r.login.value).Some?
    ensures var started := StartLogin(r, r.login.value).value;
      var offered := OfferLogin(started, url, transaction, expiresAt);
      && offered.Some? && BrowserGeneration(offered.value).Some?
      && (RecoveryReference(offered.value) == RecoveryReference(r) <==>
            r.login.value.transactionId == Some(transaction))
  {
    var started := StartLogin(r, r.login.value).value;
    assert RecoveryReference(started) == RecoveryReference(r);
    OfferAndReference(started, url, transaction, expiresAt);
  }

  /// The run of such a restart.
  function Restarted(r: Record, reply: Json.Value, offer: AuthOutcomes.Offer): History
    requires r.login.Some?
  {
    var login := r.login.value;
    var started := Then(Boot(Some(r)), Saved(LoginStarted(r, login), r.(revocation := None)));
    var asked := Then(started, Requested(StartCall(login.key), None, Accepted(reply)));
    var offered := OfferLogin(r.(revocation := None), offer.url, offer.transactionId, offer.expiresAt).value;
    Then(asked, Saved(LoginOffered(offer.url, offer.transactionId, offer.expiresAt), offered))
  }

  lemma {:induction false} RestartIsLawful(r: Record, reply: Json.Value, offer: AuthOutcomes.Offer)
    requires r.login.Some? && StartLogin(r, r.login.value).Some? && Sound(r)
    requires Offers(reply, offer.url, offer.transactionId, offer.expiresAt)
    ensures Lawful(Restarted(r, reply, offer)) && Undisturbed(Restarted(r, reply, offer))
    ensures Prefix(Boot(Some(r)), Restarted(r, reply, offer))
  {
    var h := Restarted(r, reply, offer);
    var asked, started, boot := h.past, h.past.past, Boot(Some(r));
    assert Lawful(boot) && Undisturbed(boot) && Prefix(boot, boot);
    assert LawfulEvent(boot, started.event) && Lawful(started) && Undisturbed(started) && Prefix(boot, started);
    assert LawfulEvent(started, asked.event) && Lawful(asked) && Undisturbed(asked) && Prefix(boot, asked);
    assert LawfulEvent(asked, h.event);
    hide Supply, Sound, Offers;
  }

  /// An offer as the control plane builds it.
  function OfferReply(url: string, transaction: string, expiresAt: Instant): Json.Value {
    Json.Object(map[Json.AuthorizationPath := Json.Text(url), Json.TransactionId := Json.Text(transaction),
                    Json.ExpiresAt := Json.Number(expiresAt)])
  }

  lemma OfferRoundTrip(url: string, transaction: string, expiresAt: Instant)
    requires url != "" && transaction != ""
    ensures AuthOutcomes.ParseOffer(OfferReply(url, transaction, expiresAt))
         == Some(AuthOutcomes.Offer(url, transaction, expiresAt))
    ensures Offers(OfferReply(url, transaction, expiresAt), url, transaction, expiresAt)
  {
  }

  /// A run in which it does not: a crash between keeping the code and the
  /// exchange, the flow lapses, and its restart is offered another transaction.
  lemma RestartChangesReference() returns (r: Record, h: History)
    ensures Sound(r) && SignsInUntil(r, 600) && Lawful(h) && Undisturbed(h) && Prefix(Boot(Some(r)), h)
    ensures OfferedLast(h, AuthOutcomes.Offer("u", "other", 1200))
    ensures Cell(h).Some? && SameCodeOtherReference(r, Cell(h).value)
  {
    var login := Login("k", "n", "f", 600, Some("u"), Some("t"), Some("u"), Some("s"), Some("v"), Some("c"));
    r := Fresh("i", 7).(login := Some(login));
    var reply := OfferReply("u", "other", 1200);
    OfferRoundTrip("u", "other", 1200);
    var offer := AuthOutcomes.Offer("u", "other", 1200);
    h := Restarted(r, reply, offer);
    RestartIsLawful(r, reply, offer);
    assert BrowserGeneration(r).Some? && "other" != "t";
    OfferAndReference(r, "u", "other", 1200);
    hide Supply, Lawful, Undisturbed, Prefix, OfferReply;
  }

  predicate SignsInUntil(r: Record, deadline: Instant) {
    r.login.Some? && r.login.value.redirectUri.Some? && r.login.value.expiresAt == deadline
  }

  /// The last event but one is the answer that makes this offer.
  predicate OfferedLast(h: History, offer: AuthOutcomes.Offer) {
    && h.Then? && h.past.Then? && h.past.event.Requested? && h.past.event.reply.Accepted?
    && AuthOutcomes.ParseOffer(h.past.event.reply.data) == Some(offer)
  }

  predicate SameCodeOtherReference(r: Record, s: Record) {
    && r.login.Some? && r.login.value.receivedCode.Some?
    && s.login.Some? && s.login.value.receivedCode == r.login.value.receivedCode
    && RecoveryReference(r).Some? && RecoveryReference(s).Some? && RecoveryReference(s) != RecoveryReference(r)
  }

  // ---- One operation, one reference ----------------------------------------

  /// What may happen to a sign-in between its code and its bootstrap without
  /// touching its reference: a restarted flow must be offered its own transaction
  /// again, and a declined one must have left its generation in the request.
  predicate KeepsOperation(r: Record, step: Step) {
    || step.RecoveryMarked? || step.Chained? || step.ReceiptBound? || step.LogoutIntended? || step.Rejected?
    || (step.Began? && step.request.target.BrowserExchange?)
    || (step.LoginStarted? && r.login == Some(step.login))
    || (step.LoginOffered? &&
        (BrowserGeneration(r).None? || r.login.value.transactionId == Some(step.transactionId)))
    || (step.LoginDeclined? && r.pending.Some? &&
        (BrowserGeneration(r).None? || r.pending.value.generation == BrowserGeneration(r)))
  }

  predicate OneOperation(p: History, h: History) {
    p == h ||
    (&& h.Then? && !h.event.Deleted? && !h.event.Overwritten? && OneOperation(p, h.past)
     && (h.event.Saved? ==> Cell(h.past).Some? && KeepsOperation(Cell(h.past).value, h.event.step)))
  }

  lemma StepKeepsReference(r: Record, step: Step)
    requires Next(r, step).Some? && KeepsOperation(r, step)
    requires r.pending.Some? ==> OfSignIn(r.pending.value)
    ensures var s := Next(r, step).value;
      RecoveryReference(s) == RecoveryReference(r) && (s.pending.Some? ==> OfSignIn(s.pending.value))
  {
    match step
    case Began(p) => ExchangeKeepsReference(r, p);
    case Chained(grant, nonce, at) => ChainKeepsReference(r, grant, nonce, at);
    case RecoveryMarked => MarkKeepsReference(r);
    case LoginOffered(url, transaction, expiresAt) => OfferAndReference(r, url, transaction, expiresAt);
    case LoginDeclined => DeclineAndReference(r);
    case _ =>
    hide ValidRevocation, SettleRejections, Core, NothingToRevoke, CredentialIdentity;
  }

  /// The two steps that other operations take on a sign-in are admitted exactly
  /// where they leave the reference as it was.
  lemma AdmittedExactly(r: Record, step: Step)
    requires Next(r, step).Some? && (r.pending.Some? ==> OfSignIn(r.pending.value))
    requires step.LoginOffered? || (step.LoginDeclined? && r.pending.Some?)
    ensures KeepsOperation(r, step) <==> RecoveryReference(Next(r, step).value) == RecoveryReference(r)
  {
    match step
    case LoginOffered(url, transaction, expiresAt) => OfferAndReference(r, url, transaction, expiresAt);
    case LoginDeclined => DeclineAndReference(r);
  }

  /// From the received code, through exchange, retries, restarts of its flow and
  /// chain, to the bootstrap: one sign-in has one recovery reference.
  lemma {:induction false} SignInKeepsReference(p: History, h: History)
    requires Lawful(h) && OneOperation(p, h) && Cell(p).Some?
    requires Cell(p).value.pending.Some? ==> OfSignIn(Cell(p).value.pending.value)
    ensures Cell(h).Some? && RecoveryReference(Cell(h).value) == RecoveryReference(Cell(p).value)
    ensures Cell(h).value.pending.Some? ==> OfSignIn(Cell(h).value.pending.value)
  {
    if p != h {
      SignInKeepsReference(p, h.past);
      if h.event.Saved? {
        StepKeepsReference(Cell(h.past).value, h.event.step);
      }
    }
    hide Next, Supported, MayRequest, MayTransmit, RecoveryReference, KeepsOperation;
  }

  // ---- Token lifetimes -----------------------------------------------------

  /// The adopted expiry never exceeds the start of the request plus the granted
  /// seconds, nor the server's own deadline.
  lemma ExpiryIsBounded(data: Json.Value, startedAt: Instant)
    requires Expiry(data, startedAt).Some?
    ensures var e := Expiry(data, startedAt).value;
      && Json.AsU64(Json.At(data, Json.ExpiresInSeconds)).Some?
      && var ttl := Json.AsU64(Json.At(data, Json.ExpiresInSeconds)).value;
      && 0 < ttl && 0 < e <= startedAt + ttl
      && (Json.Get(data, Json.ExpiresAt).Some? ==>
            && Json.AsU64(Json.At(data, Json.ExpiresAt)).Some?
            && e <= Json.AsU64(Json.At(data, Json.ExpiresAt)).value)
      && (e == startedAt + ttl || Json.AsU64(Json.At(data, Json.ExpiresAt)) == Some(e))
  {
  }

  /// A usable token has more than a minute left, with no wrap at the end of time.
  lemma UsableMeansAMinuteLeft(t: Token, time: Instant)
    ensures t.UsableAt(time) <==> time + 60 < t.expiresAt
  {
  }

  lemma ParsedExpiry(data: Json.Value, subject: string, startedAt: Instant)
    requires ParseToken(data, subject, startedAt).Some?
    ensures Expiry(data, startedAt) == Some(ParseToken(data, subject, startedAt).value.expiresAt)
  {
    hide Expiry;
  }

  lemma BootstrapExpiry(r: Record, p: Pending, data: Json.Value)
    requires AdoptBootstrap(r, p, data).Some?
    ensures var a := AdoptBootstrap(r, p, data).value;
      a.device.Some? && Expiry(Json.At(data, Json.Device), p.startedAt) == Some(a.device.value.expiresAt)
  {
    var device := Json.At(data, Json.Device);
    ParsedExpiry(device, Json.Field(device, Json.DeviceId).value, p.startedAt);
    hide Expiry, ParseToken;
  }

  lemma EnrollmentExpiry(r: Record, p: Pending, org: string, data: Json.Value)
    requires AdoptEnrollment(r, p, org, data).Some?
    ensures var a := AdoptEnrollment(r, p, org, data).value;
      org in a.children && Expiry(Json.At(data, Json.Child), p.startedAt) == Some(a.children[org].expiresAt)
  {
    var runner := Json.At(data, Json.Runner);
    ParsedExpiry(Json.At(data, Json.Child), Json.Field(runner, Json.Id).value, p.startedAt);
    hide Expiry, ParseToken, PersonaBinding;
  }

  lemma RotationExpiry(r: Record, p: Pending, data: Json.Value)
    requires AdoptCredentials(r, p, data).Some? && (p.target.DeviceRefresh? || p.target.ChildRefresh?)
    ensures var t := AdoptedToken(p.target, AdoptCredentials(r, p, data).value);
      t.Some? && Expiry(data, p.startedAt) == Some(t.value.expiresAt)
  {
    match p.target
    case DeviceRefresh => ParsedExpiry(data, r.device.value.subject, p.startedAt);
    case ChildRefresh(org) => ParsedExpiry(data, r.children[org].subject, p.startedAt);
    hide Expiry, ParseToken, BindingOf, AdoptBootstrap, AdoptEnrollment;
  }

  lemma AdoptedTokenExpiry(r: Record, p: Pending, data: Json.Value)
    requires AdoptCredentials(r, p, data).Some? && !p.target.BrowserCancel?
    ensures var t := AdoptedToken(p.target, AdoptCredentials(r, p, data).value);
      t.Some? && Expiry(TokenPart(p.target, data), p.startedAt) == Some(t.value.expiresAt)
  {
    match p.target
    case Bootstrap => BootstrapExpiry(r, p, data);
    case Enroll(org) => EnrollmentExpiry(r, p, org, data);
    case DeviceRefresh => RotationExpiry(r, p, data);
    case ChildRefresh(_) => RotationExpiry(r, p, data);
    case _ =>
    hide Expiry, AdoptBootstrap, AdoptDevice, AdoptChild, AdoptEnrollment;
  }

  lemma SameStartAsFirstSend(h: History, first: History, p: Pending)
    requires Lawful(h) && Undisturbed(h) && Held(h, p) && Prefix(first, h)
    requires first.Then? && first.event.Transmitted? && Stamp(first.event.pending) == Stamp(p)
    ensures first.event.pending.startedAt == p.startedAt
  {
    PrefixLawful(first, h);
    assert Held(first, first.event.pending) by {
      assert HeldBy(Cell(first), first.event.pending);
    }
    PrefixHeld(first, h, first.event.pending);
    SameStampSameRequest(h, first.event.pending, p);
    hide Stamp, Supply, Supported, Next, Sound;
  }

  /// The reply that carried a token bounds its life, counted from when its request was journaled.
  predicate LivesWithin(t: Token, part: Json.Value, startedAt: Instant) {
    && Json.AsU64(Json.At(part, Json.ExpiresInSeconds)).Some?
    && t.expiresAt <= startedAt + Json.AsU64(Json.At(part, Json.ExpiresInSeconds)).value
    && (Json.Get(part, Json.ExpiresAt).Some? ==>
          (&& Json.AsU64(Json.At(part, Json.ExpiresAt)).Some?
           && t.expiresAt <= Json.AsU64(Json.At(part, Json.ExpiresAt)).value))
  }

  lemma AdoptionOf(h: History)
    requires Lawful(h) && h.Then? && h.event.Saved? && h.event.step.Adopted? && Cell(h.past).Some?
    ensures Adopt(Cell(h.past).value, h.event.step.data) == Some(h.event.record)
  {
    hide Adopt, Supported, MayRequest, MayTransmit;
  }

  lemma PastHolds(h: History)
    requires Lawful(h) && Undisturbed(h) && h.Then?
    ensures Lawful(h.past) && Undisturbed(h.past)
    ensures Cell(h.past).Some? && Cell(h.past).value.pending.Some? ==> Held(h.past, Cell(h.past).value.pending.value)
  {
    hide LawfulEvent, Sound;
  }

  lemma AdoptedLifetime(r: Record, data: Json.Value)
    requires Adopt(r, data).Some? && !r.pending.value.target.BrowserCancel?
    ensures var p := r.pending.value;
      var t := AdoptedToken(p.target, Adopt(r, data).value);
      t.Some? && LivesWithin(t.value, TokenPart(p.target, data), p.startedAt)
  {
    var p := r.pending.value;
    AdoptionUsesCredentials(r, data);
    AdoptedTokenExpiry(r, p, data);
    ExpiryIsBounded(TokenPart(p.target, data), p.startedAt);
    hide AdoptCredentials, Adopt, Expiry;
  }

  /// However late and however often a request is recovered, the token it yields
  /// lives no longer than if the first answer had been adopted at once.
  lemma LateRecoveryGainsNoLifetime(h: History, first: History)
    requires Lawful(h) && Undisturbed(h) && h.Then? && h.event.Saved? && h.event.step.Adopted?
    requires Prefix(first, h) && first.Then? && first.event.Transmitted?
    requires Cell(h.past).Some? && Cell(h.past).value.pending.Some?
    requires !Cell(h.past).value.pending.value.target.BrowserCancel?
    requires Stamp(first.event.pending) == Stamp(Cell(h.past).value.pending.value)
    ensures var target := Cell(h.past).value.pending.value.target;
      var t := AdoptedToken(target, h.event.record);
      t.Some? && LivesWithin(t.value, TokenPart(target, h.event.step.data), first.event.pending.startedAt)
  {
    var r := Cell(h.past).value;
    PastHolds(h);
    SameStartAsFirstSend(h.past, first, r.pending.value);
    AdoptionOf(h);
    AdoptedLifetime(r, h.event.step.data);
    hide Stamp, Supply, Adopt, LawfulEvent, Sound, LivesWithin, AdoptedToken, Held, TokenPart, Cell;
  }

  // ---- Drift while a request is in flight ----------------------------------

  predicate UsesAnswer(step: Step) {
    || step.Adopted? || step.Rejected? || step.Chained? || step.CancelRefused? || step.CancelConfirmed?
    || step.DeviceRevoked? || step.LoginOffered? || step.ProfilesListed? || step.UpgradeSaved?
  }

  /// An answer is used only over the very record that was stored when its
  /// request left: no write of any kind lies between.
  lemma AnswersNeedTheirOwnRecord(past: History, step: Step, next: Record)
    requires LawfulEvent(past, Saved(step, next)) && UsesAnswer(step)
    ensures past.Then? && Cell(past).Some? && !past.event.Overwritten? && !past.event.Deleted?
    ensures Cell(past.past) == Cell(past) || (step.Adopted? && past.event.Saved? && past.event.step.CancelConfirmed?)
  {
    hide Next, Supply;
  }

  // ---- Scope grants --------------------------------------------------------

  predicate UpgradeBeyondGrant(cell: Option<Record>, org: string, key: string) {
    cell.Some? && (org, key) in cell.value.upgrades && !cell.value.upgrades[(org, key)].phase.GrantPending?
  }

  /// From `p` on, no logout erased the upgrade journal.
  predicate NoClearing(p: History, h: History) {
    p == h ||
    (&& h.Then? && !h.event.Deleted? && !h.event.Overwritten? && !(h.event.Saved? && h.event.step.LogoutCleared?)
     && NoClearing(p, h.past))
  }

  predicate NoGrantRequest(p: History, h: History, org: string, key: string) {
    p == h ||
    (&& h.Then? && !(h.event.Requested? && h.event.call == GrantCall(org, key))
     && NoGrantRequest(p, h.past, org, key))
  }

  lemma StepKeepsUpgrade(r: Record, step: Step, org: string, key: string)
    requires Next(r, step).Some? && !step.LogoutCleared? && UpgradeBeyondGrant(Some(r), org, key)
    ensures UpgradeBeyondGrant(Next(r, step), org, key)
    ensures var u := r.upgrades[(org, key)]; var v := Next(r, step).value.upgrades[(org, key)];
      && v.requested == u.requested && v.binding.SameAttachment(u.binding)
      && (u.phase.Verified? || u.phase.Denied? ==> v == u)
      && (v.phase == u.phase || (u.phase.RefreshPending? && v.phase.Verified?))
  {
    if step.Adopted? {
      AdoptedAny(r, r.pending.value, step.data);
    }
    hide AdoptCredentials, ValidRevocation, NothingToRevoke, IsNewRequest, IsCancelIntent, PendingGeneration,
      RecoveryReference, SettleResults, SettleRejections;
  }

  /// Once a grant has been answered it is never requested again.
  lemma {:induction false} GrantNeverResent(p: History, h: History, org: string, key: string)
    requires Lawful(h) && NoClearing(p, h) && UpgradeBeyondGrant(Cell(p), org, key)
    ensures UpgradeBeyondGrant(Cell(h), org, key)
    ensures NoGrantRequest(p, h, org, key)
  {
    if p != h {
      GrantNeverResent(p, h.past, org, key);
      if h.event.Saved? {
        StepKeepsUpgrade(Cell(h.past).value, h.event.step, org, key);
      }
    }
    hide Next, Supported, MayTransmit;
  }
}
