// What a credential may do for personas: the grant that the control plane
// reports, closed under its implications, against the scopes in the token.

module Scopes {
  import opened Basics
  import opened Credentials
  import Json

  const READ := "runner.personas.read"
  const CHAT := "runner.personas.chat"
  const MEMORY_READ := "runner.personas.memory.read"
  const MEMORY_WRITE := "runner.personas.memory.write"
  const MANAGE := "runner.personas.manage"

  predicate PersonaScope(scope: string) {
    scope == READ || scope == CHAT || scope == MEMORY_READ || scope == MEMORY_WRITE || scope == MANAGE
  }

  /// The granted list with its implied scopes appended, as the source does it.
  function Normalize(granted: seq<string>): seq<string> {
    var chat := if CHAT in granted && READ !in granted then granted + [READ] else granted;
    if MEMORY_WRITE in granted && MEMORY_READ !in chat then chat + [MEMORY_READ] else chat
  }

  predicate Closed(scopes: set<string>) {
    (CHAT in scopes ==> READ in scopes) && (MEMORY_WRITE in scopes ==> MEMORY_READ in scopes)
  }

  function Members(scopes: seq<string>): set<string> {
    set s | s in scopes
  }

  function Personas(scopes: set<string>): set<string> {
    set s | s in scopes && PersonaScope(s)
  }

  /// What counts of a list of scopes are the five that personas know.
  lemma FivePersonaScopes(scopes: set<string>)
    ensures Personas(scopes) == scopes *
      {"runner.personas.read", "runner.personas.chat", "runner.personas.memory.read", "runner.personas.memory.write",
       "runner.personas.manage"}
  {
  }

  /// The appended list is the least closed set that holds the grant.
  lemma NormalizeIsClosure(granted: seq<string>)
    ensures Members(granted) <= Members(Normalize(granted)) && Closed(Members(Normalize(granted)))
    ensures forall s :: Members(granted) <= s && Closed(s) ==> Members(Normalize(granted)) <= s
  {
  }

  datatype Assessment =
    | Unverifiable  // no scope context to check against
    | WrongOwner
    | Malformed
    | StaleToken  // the token predates its grant
    | VerifiedAs(binding: Binding)

  /// The attachment that a self description reports.
  function ReportedBinding(data: Json.Value, org: string): Option<Binding> {
    var context := Json.At(data, Json.ScopeContext);
    PersonaBinding(org, Json.At(context, Json.OrganizationId), Json.At(context, Json.RunnerId),
                   Json.At(context, Json.DeviceId), Json.At(context, Json.DelegationId),
                   Json.At(context, Json.EffectiveTokenScopes))
  }

  function GrantedScopes(data: Json.Value): Option<seq<string>> {
    Texts(Json.At(Json.At(data, Json.ScopeContext), Json.GrantedScopes))
  }

  /// The reported attachment is the one this record holds, and the one expected.
  predicate OwnAttachment(r: Record, org: string, data: Json.Value, b: Binding, expected: Option<Binding>) {
    var runner := Json.At(data, Json.Runner);
    && org in r.children && r.device.Some?
    && Json.At(runner, Json.Id) == Json.Text(r.children[org].subject)
    && Json.At(runner, Json.OrganizationId) == Json.Text(org)
    && b.runnerId == r.children[org].subject && b.deviceId == r.device.value.subject
    && (org in r.bindings ==> r.bindings[org].SameAttachment(b))
    && (expected.Some? ==> b.SameAttachment(expected.value))
  }

  /// One self description, checked in the order of the source.
  function Assess(r: Record, org: string, data: Json.Value, expected: Option<Binding>): Assessment {
    var context := Json.At(data, Json.ScopeContext);
    if !context.Object? then Unverifiable
    else if Json.At(context, Json.OrganizationId) != Json.Text(org) then WrongOwner
    else
      var granted := GrantedScopes(data);
      var binding := ReportedBinding(data, org);
      if granted.None? || binding.None? then Malformed
      else if !OwnAttachment(r, org, data, binding.value, expected) then WrongOwner
      else if Json.At(data, Json.TokenScopes) != Json.At(context, Json.EffectiveTokenScopes) then Malformed
      else
        var effective := binding.value.scopes;
        var normalized := Normalize(granted.value);
        if exists s <- effective :: PersonaScope(s) && s !in normalized then Malformed
        else if exists s <- normalized :: PersonaScope(s) && s !in effective then StaleToken
        else VerifiedAs(binding.value)
  }

  /// A token is verified exactly when it belongs to this owner and its persona
  /// scopes are the granted ones, closed under their implications.
  lemma VerifiedMeansClosedGrant(r: Record, org: string, data: Json.Value, expected: Option<Binding>, b: Binding)
    ensures Assess(r, org, data, expected) == VerifiedAs(b) <==>
      Attests(r, org, data, b, expected) && HoldsWholeGrant(data, b)
  {
    ReportedExactly(data, org, b);
    if GrantedScopes(data).Some? {
      SamePersonas(b.scopes, Normalize(GrantedScopes(data).value));
    }
    hide Normalize, PersonaScope, Describes, PersonaBinding;
  }

  /// The token's persona scopes are the granted ones and those that they imply.
  predicate HoldsWholeGrant(data: Json.Value, b: Binding) {
    var granted := Texts(Json.At(Json.At(data, Json.ScopeContext), Json.GrantedScopes));
    granted.Some? && Personas(Members(b.scopes)) == Personas(Members(Normalize(granted.value)))
  }

  /// A self description of exactly this attachment: the context and the runner
  /// agree with it, with the stored owner, with what is cached and expected, and
  /// the token carries the scopes that the context gives it.
  predicate Attests(r: Record, org: string, data: Json.Value, b: Binding, expected: Option<Binding>) {
    var c := Json.At(data, Json.ScopeContext);
    var runner := Json.At(data, Json.Runner);
    && org in r.children && r.device.Some?
    && Describes(b, org, Json.At(c, Json.OrganizationId), Json.At(c, Json.RunnerId), Json.At(c, Json.DeviceId),
                 Json.At(c, Json.DelegationId), Json.At(c, Json.EffectiveTokenScopes))
    && Json.At(data, Json.TokenScopes) == Json.At(c, Json.EffectiveTokenScopes)
    && Json.At(runner, Json.Id) == Json.Text(b.runnerId) && Json.At(runner, Json.OrganizationId) == Json.Text(org)
    && b.runnerId == r.children[org].subject && b.deviceId == r.device.value.subject
    && (org in r.bindings ==>
          (&& r.bindings[org].org == org && r.bindings[org].runnerId == b.runnerId
           && r.bindings[org].deviceId == b.deviceId && r.bindings[org].delegationId == b.delegationId))
    && (expected.Some? ==>
          (&& expected.value.org == org && expected.value.runnerId == b.runnerId
           && expected.value.deviceId == b.deviceId && expected.value.delegationId == b.delegationId))
  }

  lemma ReportedExactly(data: Json.Value, org: string, b: Binding)
    ensures var c := Json.At(data, Json.ScopeContext);
      ReportedBinding(data, org) == Some(b) <==>
      Describes(b, org, Json.At(c, Json.OrganizationId), Json.At(c, Json.RunnerId), Json.At(c, Json.DeviceId),
                Json.At(c, Json.DelegationId), Json.At(c, Json.EffectiveTokenScopes))
  {
    var c := Json.At(data, Json.ScopeContext);
    BindingExactly(b, org, Json.At(c, Json.OrganizationId), Json.At(c, Json.RunnerId), Json.At(c, Json.DeviceId),
                   Json.At(c, Json.DelegationId), Json.At(c, Json.EffectiveTokenScopes));
    hide PersonaBinding, Describes;
  }

  lemma SamePersonas(a: seq<string>, b: seq<string>)
    ensures Personas(Members(a)) == Personas(Members(b)) <==>
      (forall s <- a :: PersonaScope(s) ==> s in b) && (forall s <- b :: PersonaScope(s) ==> s in a)
  {
    if Personas(Members(a)) == Personas(Members(b)) {
      forall s | s in a && PersonaScope(s) ensures s in b {
        assert s in Personas(Members(a));
      }
      forall s | s in b && PersonaScope(s) ensures s in a {
        assert s in Personas(Members(b));
      }
    }
    hide PersonaScope;
  }

  /// A token is stale exactly when it is this owner's and lacks a persona scope
  /// that its grant implies, but has none too many.
  lemma StaleMeansMissing(r: Record, org: string, data: Json.Value, expected: Option<Binding>, b: Binding)
    ensures var granted := Texts(Json.At(Json.At(data, Json.ScopeContext), Json.GrantedScopes));
      Assess(r, org, data, expected).StaleToken? && ReportedBinding(data, org) == Some(b) <==>
      (&& Attests(r, org, data, b, expected) && granted.Some?
       && Personas(Members(b.scopes)) < Personas(Members(Normalize(granted.value))))
  {
    ReportedExactly(data, org, b);
    if GrantedScopes(data).Some? {
      FewerPersonas(b.scopes, Normalize(GrantedScopes(data).value));
    }
    hide Normalize, PersonaScope, Describes, PersonaBinding;
  }

  lemma FewerPersonas(a: seq<string>, b: seq<string>)
    ensures Personas(Members(a)) < Personas(Members(b)) <==>
      (forall s <- a :: PersonaScope(s) ==> s in b) && (exists s <- b :: PersonaScope(s) && s !in a)
  {
    SamePersonas(a, b);
    if forall s <- a :: PersonaScope(s) ==> s in b {
      assert Personas(Members(a)) <= Personas(Members(b));
    } else {
      var s :| s in a && PersonaScope(s) && s !in b;
      assert s in Personas(Members(a)) && s !in Personas(Members(b));
    }
    hide PersonaScope;
  }
}
