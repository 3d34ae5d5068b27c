// The uninstall up to its cleanup, over any number of runs of one operation: the
// journal that each run saves before it goes on, and the one request that stops
// the service. A trace lists what took effect; a crash needs no event.

module UninstallPhases {
  import opened Basics

  datatype Phase = Prepared | IdleVerified | StopIntent | Stopped | Revoked | Cleanup {
    function Rank(): nat {
      match this
      case Prepared => 0
      case IdleVerified => 1
      case StopIntent => 2
      case Stopped => 3
      case Revoked => 4
      case Cleanup => 5
    }
  }

  /// `stopEvidence.request`.
  datatype Request = NoRequest | RequestPrepared | Unconfirmed | NotDispatched

  datatype Identity = Identity(installation: string, device: Option<string>)

  datatype Remote = Confirmed | NotRequired | OtherRemote(text: string)

  /// What the maintenance process reports after a logout.
  datatype Logout = Logout(remote: Remote, identity: Option<Identity>)

  datatype Recovery = NoRecovery | FromOldJournal | FromCurrentJournal

  datatype Journal = Journal(
    operation: nat,
    phase: Phase,
    request: Request,
    pid: Option<nat>,
    expected: Option<Identity>,
    absenceVerified: bool,
    remote: Option<Remote>,
    result: Option<Logout>,
    storeRemoved: bool,
    recovery: Recovery,
    captured: bool)

  /// `revocation_satisfied`.
  predicate Satisfied(j: Journal) {
    || j.remote == Some(Confirmed)
    || (&& j.remote == Some(NotRequired) && (j.expected.Some? || j.absenceVerified)
        && (j.expected.None? || j.expected.value.device.None?)
        && j.result.Some? && j.result.value.remote == NotRequired && j.result.value.identity == j.expected)
  }

  /// Nothing to revoke: no device was bound, or the absence was verified, and
  /// the process that looked reports just that.
  predicate ClosedWithoutRemote(j: Journal) {
    && j.remote == Some(NotRequired)
    && (if j.expected.Some? then j.expected.value.device.None? else j.absenceVerified)
    && j.result == Some(Logout(NotRequired, j.expected))
  }

  /// What the cleanup asks of the journal it starts from.
  predicate MayClean(j: Journal) {
    (j.phase.Revoked? || j.phase.Cleanup?) && Satisfied(j) && j.storeRemoved && j.captured
  }

  /// Why a journal was saved.
  datatype Mark =
    | Opened(operation: nat, installation: Option<string>)
    | AdoptedOld(operation: nat, baseline: string, stopped: bool)
    | Adopted
    | AdmittedStopped(native: Option<Identity>)
    | AdmittedIdle(pid: nat)
    | Intended
    | Attempted
    | Withdrawn
    | SeenStopped
    | Captured
    | Recorded(native: Option<Identity>)
    | LoggedOut(result: Logout)
    | AbsentRevoked
    | StoreRemoved
    | CleanupEntered

  datatype Event = Saved(mark: Mark, journal: Journal) | Spawned(accepted: bool)

  type Trace = seq<Event>

  function Last(t: Trace): Event
    requires t != []
  {
    t[|t| - 1]
  }

  function Init(t: Trace): Trace
    requires t != []
  {
    t[..|t| - 1]
  }

  /// The journal in the state directory after a trace.
  function Durable(t: Trace): Option<Journal>
    decreases |t|
  {
    if t == [] then None
    else if Last(t).Saved? then Some(Last(t).journal)
    else Durable(Init(t))
  }

  // ---- The journal that each mark writes -----------------------------------

  function Fresh(operation: nat, installation: Option<string>, recovery: Recovery): Journal {
    Journal(operation, Prepared, NoRequest, None,
            if installation.Some? then Some(Identity(installation.value, None)) else None,
            false, None, None, false, recovery, false)
  }

  /// `record_native_identity`: binds the native identity, or its verified absence.
  function RecordNative(j: Journal, native: Option<Identity>): Option<Journal> {
    match j.expected
    case None =>
      if native.None? && !j.recovery.FromOldJournal? then
        Some(j.(absenceVerified := true, remote := Some(NotRequired), storeRemoved := true,
                result := Some(Logout(NotRequired, None))))
      else
        None
    case Some(expected) =>
      if native.Some? && native.value.installation == expected.installation
         && (expected.device.None? || native.value == expected)
      then Some(j.(expected := native)) else None
  }

  /// A logout result is used only for the bound identity and only when nothing is left to revoke.
  function RecordLogout(j: Journal, result: Logout): Option<Journal> {
    if j.expected.Some? && result.identity.Some? && result.identity.value.installation == j.expected.value.installation
       && (j.expected.value.device.None? || result.identity.value.device == j.expected.value.device)
       && (result.remote.Confirmed? || (result.remote.NotRequired? && result.identity.value.device.None?))
    then Some(j.(expected := result.identity, remote := Some(result.remote), result := Some(result), phase := Revoked))
    else None
  }

  function Write(j: Journal, mark: Mark): Option<Journal> {
    match mark
    case Adopted =>
      if j.phase.Prepared? && j.recovery.NoRecovery? && (j.expected.Some? ==> j.expected.value.device.None?)
      then Some(j.(recovery := FromCurrentJournal, request := NoRequest, pid := None)) else None
    case AdmittedStopped(native) =>
      if !j.phase.Prepared? then None else
      var recorded := RecordNative(j, native);
      if recorded.None? then None
      else Some(recorded.value.(phase := Stopped, request := NotDispatched, pid := None))
    case AdmittedIdle(pid) =>
      if j.phase.Prepared? then Some(j.(phase := IdleVerified, pid := Some(pid), request := NoRequest)) else None
    case Intended =>
      if j.phase.IdleVerified? && j.pid.Some? then Some(j.(phase := StopIntent, request := RequestPrepared)) else None
    case Attempted =>
      if j.phase.StopIntent? && j.request.RequestPrepared? then Some(j.(request := Unconfirmed)) else None
    case Withdrawn =>
      if j.phase.StopIntent? && j.request.Unconfirmed? then Some(j.(request := RequestPrepared)) else None
    case SeenStopped => if j.phase.StopIntent? then Some(j.(phase := Stopped)) else None
    case Captured => if j.phase.Stopped? && !j.captured then Some(j.(captured := true)) else None
    case Recorded(native) => if j.phase.Stopped? then RecordNative(j, native) else None
    case LoggedOut(result) => if j.phase.Stopped? && j.captured then RecordLogout(j, result) else None
    case AbsentRevoked =>
      if j.phase.Stopped? && j.captured && j.expected.None? && j.absenceVerified
      then Some(j.(phase := Revoked)) else None
    case StoreRemoved => if j.phase.Revoked? then Some(j.(storeRemoved := true)) else None
    case CleanupEntered =>
      if (j.phase.Revoked? || j.phase.Cleanup?) && j.storeRemoved then Some(j.(phase := Cleanup)) else None
    case _ => None
  }

  predicate Opens(mark: Mark, k: Journal) {
    match mark
    case Opened(operation, installation) => k == Fresh(operation, installation, NoRecovery)
    case AdoptedOld(operation, installation, stopped) =>
      k == Fresh(operation, Some(installation), FromOldJournal).(phase := if stopped then StopIntent else Prepared)
    case _ => false
  }

  predicate LawfulEvent(past: Trace, e: Event) {
    match e
    case Saved(mark, k) =>
      (match Durable(past)
       case None => past == [] && Opens(mark, k)
       case Some(j) =>
         && Write(j, mark) == Some(k)
         && (mark.Withdrawn? ==> Last(past) == Spawned(false))
         && (mark.AbsentRevoked? ==> Last(past).Saved? && Last(past).mark.Recorded?))
    case Spawned(_) => past != [] && Last(past).Saved? && Last(past).mark.Attempted?
  }

  predicate Lawful(t: Trace)
    decreases |t|
  {
    t != [] ==> Lawful(Init(t)) && LawfulEvent(Init(t), Last(t))
  }

  // ---- The stop request ----------------------------------------------------

  /// How often the stop request was really sent.
  function Sends(t: Trace): nat
    decreases |t|
  {
    if t == [] then 0 else Sends(Init(t)) + (if Last(t) == Spawned(true) then 1 else 0)
  }

  predicate MayStillSend(j: Journal) {
    j.phase.Rank() < StopIntent.Rank() || j.request.RequestPrepared?
  }

  /// Over any number of runs the service is asked to stop at most once; while the
  /// journal still says that the request may be made, it never was.
  lemma {:induction false} StopIsSentOnce(t: Trace)
    requires Lawful(t)
    ensures Sends(t) <= 1
    ensures Durable(t).Some? && MayStillSend(Durable(t).value) ==> Sends(t) == 0
    ensures t != [] && Last(t).Saved? && Last(t).mark.Attempted? ==> Sends(t) == 0
    ensures Durable(t).None? ==> t == []
    ensures t != [] && Last(t) == Spawned(false) ==> Sends(t) == 0
    ensures Durable(t).Some? && Durable(t).value.phase.Rank() < StopIntent.Rank() ==>
      Durable(t).value.request.NoRequest?
    decreases |t|
  {
    if t != [] {
      StopIsSentOnce(Init(t));
    }
    hide RecordNative, RecordLogout, Opens, Fresh;
  }

  /// The attempt is durable before every spawn.
  lemma AttemptIsDurable(t: Trace)
    requires Lawful(t) && t != [] && Last(t).Spawned?
    ensures Durable(Init(t)).Some? && Durable(Init(t)).value.request.Unconfirmed? && Durable(t) == Durable(Init(t))
  {
    assert LawfulEvent(Init(Init(t)), Last(Init(t)));
  }

  // ---- Phases and identities -----------------------------------------------

  /// The installation is fixed, and a device is bound at most once.
  predicate SameOwner(a: Option<Identity>, b: Option<Identity>) {
    && (a.None? <==> b.None?)
    && (a.Some? ==> a.value.installation == b.value.installation && (a.value.device.Some? ==> b == a))
  }

  /// Where a saved journal may go on from an earlier one of the same operation.
  predicate Follows(j: Journal, k: Journal) {
    && k.operation == j.operation && k.phase.Rank() >= j.phase.Rank()
    && SameOwner(j.expected, k.expected)
    && (k.recovery == j.recovery || (j.recovery.NoRecovery? && j.phase.Prepared?))
    && (j.phase.Rank() >= Revoked.Rank() ==> k.expected == j.expected && k.remote == j.remote && k.result == j.result)
    && (j.storeRemoved ==> k.storeRemoved)
  }

  lemma WriteFollows(j: Journal, mark: Mark)
    requires Write(j, mark).Some?
    ensures Follows(j, Write(j, mark).value)
  {
  }

  /// The identity that is bound is the one that was found, and it is nobody
  /// else's than expected; where none was expected, none may be found.
  lemma NativeIsBound(j: Journal, native: Option<Identity>, mark: Mark)
    requires mark == Recorded(native) || mark == AdmittedStopped(native)
    requires Write(j, mark).Some?
    ensures Write(j, mark).value.expected == native && SameOwner(j.expected, native)
    ensures native.None? ==> Write(j, mark).value.absenceVerified && Satisfied(Write(j, mark).value)
  {
  }

  /// A logout is recorded only for the bound owner, whose device it binds, and
  /// as it was reported; a device is never reported as nothing to revoke.
  lemma LogoutIsBound(j: Journal, result: Logout)
    requires Write(j, LoggedOut(result)).Some?
    ensures var k := Write(j, LoggedOut(result)).value;
      && k.expected == result.identity && SameOwner(j.expected, k.expected) && k.expected.Some?
      && k.phase.Revoked? && k.result == Some(result) && k.remote == Some(result.remote)
      && (result.remote.Confirmed? || (result.remote.NotRequired? && k.expected.value.device.None?))
  {
  }

  /// No run ever moves the phase back, changes the installation, or rebinds the device.
  lemma {:induction false} JournalsFollow(t: Trace, i: nat)
    requires Lawful(t) && i <= |t| && Durable(t[..i]).Some?
    ensures Durable(t).Some? && Follows(Durable(t[..i]).value, Durable(t).value)
    decreases |t|
  {
    if i == |t| {
      assert t[..i] == t;
    } else {
      assert Init(t)[..i] == t[..i];
      JournalsFollow(Init(t), i);
      if Last(t).Saved? {
        WriteFollows(Durable(Init(t)).value, Last(t).mark);
      }
    }
    hide Write;
  }

  /// Every journal in phase revoked or cleanup satisfies the guard of the cleanup.
  lemma {:induction false} RevokedIsSatisfied(t: Trace)
    requires Lawful(t) && Durable(t).Some? && Durable(t).value.phase.Rank() >= Revoked.Rank()
    ensures Satisfied(Durable(t).value) && Durable(t).value.captured
    ensures Durable(t).value.remote == Some(Confirmed) || ClosedWithoutRemote(Durable(t).value)
    ensures Durable(t).value.phase.Cleanup? ==> Durable(t).value.storeRemoved
    decreases |t|
  {
    AbsenceRecorded(t);
    var j := Durable(t).value;
    if Last(t).Saved? && Init(t) != [] {
      StopIsSentOnce(Init(t));
      AbsenceRecorded(Init(t));
      if Durable(Init(t)).value.phase.Rank() >= Revoked.Rank() {
        RevokedIsSatisfied(Init(t));
      }
    } else if Last(t).Spawned? {
      RevokedIsSatisfied(Init(t));
    }
    hide Opens;
  }

  predicate AbsenceKnown(j: Journal) {
    j.expected.None? && j.absenceVerified ==>
      j.remote == Some(NotRequired) && j.storeRemoved && j.result == Some(Logout(NotRequired, None))
  }

  lemma WriteKeepsAbsence(j: Journal, mark: Mark)
    requires AbsenceKnown(j) && Write(j, mark).Some?
    ensures AbsenceKnown(Write(j, mark).value)
  {
  }

  /// A verified absence is recorded together with everything that follows from it.
  lemma {:induction false} AbsenceRecorded(t: Trace)
    requires Lawful(t) && Durable(t).Some?
    ensures AbsenceKnown(Durable(t).value)
    decreases |t|
  {
    if Durable(Init(t)).Some? {
      AbsenceRecorded(Init(t));
      if Last(t).Saved? {
        WriteKeepsAbsence(Durable(Init(t)).value, Last(t).mark);
      }
    }
    hide Write;
  }
}
