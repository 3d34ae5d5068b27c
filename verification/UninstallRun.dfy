// One run of the uninstall, up to the cleanup. Every observation of the service,
// the credential store and the operating system is the environment's choice, and
// the run may end at any save, spawn or observation.

module UninstallRun {
  import opened Basics
  import opened UninstallPhases

  datatype Outcome = Done | Interrupted | Refused

  class Runner {
    var journal: Option<Journal>
    ghost var trace: Trace

    ghost predicate Valid()
      reads this
    {
      Lawful(trace) && journal == Durable(trace)
    }

    constructor ()
      ensures Valid() && trace == []
    {
      journal := None;
      trace := [];
    }

    /// The journal is replaced as a whole, or not at all.
    method Save(mark: Mark, k: Journal) returns (r: Outcome)
      requires Valid() && LawfulEvent(trace, Saved(mark, k))
      modifies this
      ensures Valid() && !r.Refused? && old(trace) <= trace
      ensures trace == old(trace) || trace == old(trace) + [Saved(mark, k)]
      ensures r.Done? ==> trace == old(trace) + [Saved(mark, k)] && journal == Some(k)
    {
      r := Interrupted;
      if * {
        journal := Some(k);
        trace := trace + [Saved(mark, k)];
        assert Init(trace) == old(trace);
        if * {
          r := Done;
        }
      }
      hide LawfulEvent;
    }

    /// `launchctl bootout`: accepted, refused, or this process is gone.
    method Spawn() returns (r: Outcome)
      requires Valid() && LawfulEvent(trace, Spawned(true)) && LawfulEvent(trace, Spawned(false))
      modifies this
      ensures Valid() && journal == old(journal) && old(trace) <= trace
      ensures r.Refused? ==> trace == old(trace) + [Spawned(false)]
    {
      var accepted: bool := *;
      r := Interrupted;
      if * {
        trace := trace + [Spawned(accepted)];
        assert Init(trace) == old(trace);
        r := if accepted then Done else Refused;
      }
      hide LawfulEvent;
    }

    /// Writes the next journal, if the mark may be made.
    method Advance(mark: Mark) returns (r: Outcome)
      requires Valid() && journal.Some? && !mark.Withdrawn? && !mark.AbsentRevoked?
      modifies this
      ensures Valid() && old(trace) <= trace
      ensures r.Refused? <==> Write(old(journal).value, mark).None?
      ensures r.Done? ==> journal == Write(old(journal).value, mark)
      ensures r.Done? ==> trace == old(trace) + [Saved(mark, journal.value)]
    {
      var k := Write(journal.value, mark);
      if k.None? {
        return Refused;
      }
      r := Save(mark, k.value);
      hide Write, Lawful;
    }

    /// Begins the operation, or takes over an old journal whose identity is a trusted baseline.
    method Begin(recover: bool) returns (r: Outcome)
      requires Valid() && journal.None?
      modifies this
      ensures Valid() && !r.Refused? && old(trace) <= trace
      ensures r.Done? ==> journal.Some? && (journal.value.recovery.NoRecovery? || recover)
    {
      StopIsSentOnce(trace);
      var operation: nat, installation: Option<string>, baseline: string, stopped: bool := *, *, *, *;
      var mark, k := Opened(operation, installation), Fresh(operation, installation, NoRecovery);
      if recover {
        mark := AdoptedOld(operation, baseline, stopped);
        k := Fresh(operation, Some(baseline), FromOldJournal).(phase := if stopped then StopIntent else Prepared);
      }
      r := Save(mark, k);
      hide Lawful, Durable, Write;
    }

    /// Finds the operation, and takes over a prepared one that is to be recovered.
    method Open(recover: bool) returns (r: Outcome)
      requires Valid()
      modifies this
      ensures Valid() && old(trace) <= trace
      ensures r.Done? ==> journal.Some? && (journal.value.recovery.NoRecovery? || recover)
    {
      if journal.None? {
        r := Begin(recover);
      } else if recover && journal.value.recovery.NoRecovery? {
        r := Advance(Adopted);
      } else {
        r := if !journal.value.recovery.NoRecovery? && !recover then Refused else Done;
      }
      hide Lawful, Durable;
    }

    /// A service that is already absent, or an idle and drained one, is admitted once.
    method Admit() returns (r: Outcome)
      requires Valid() && journal.Some?
      modifies this
      ensures Valid() && journal.Some? && old(trace) <= trace
      ensures r.Done? ==> journal.value.phase.Rank() >= StopIntent.Rank()
    {
      r := Done;
      if journal.value.phase.Prepared? {
        var absent: bool, native: Option<Identity>, pid: nat := *, *, *;
        r := Advance(if absent then AdmittedStopped(native) else AdmittedIdle(pid));
      }
      JournalStays(old(trace), trace);
      if r.Done? && journal.value.phase.IdleVerified? {
        ghost var idle := trace;
        r := Advance(Intended);
        JournalStays(idle, trace);
      }
      hide Lawful, RecordNative, RecordLogout, Durable;
    }

    /// The stop request: durable as attempted before it is made, and withdrawn only
    /// when it was certainly not made.
    method RequestStop() returns (r: Outcome)
      requires Valid() && journal.Some?
      modifies this
      ensures Valid() && journal.Some? && old(trace) <= trace
      ensures r.Done? ==> journal.value.phase == old(journal).value.phase
      // A spawn that was certainly refused leaves the request as it was, still to be made.
      ensures r.Refused? ==> journal == old(journal) && journal.value.request.RequestPrepared?
    {
      if !journal.value.phase.StopIntent? || !journal.value.request.RequestPrepared? {
        return Done;
      }
      var loaded: bool := *;
      r := Advance(Attempted);
      JournalStays(old(trace), trace);
      if !r.Done? || !loaded {
        return;
      }
      ghost var attempted := trace;
      r := Spawn();
      if r.Refused? {
        var k := journal.value.(request := RequestPrepared);
        r := Save(Withdrawn, k);
        if r.Done? {
          r := Refused;
        }
      }
      JournalStays(attempted, trace);
      hide Lawful, RecordNative, RecordLogout, Durable;
    }

    /// The service is seen to be gone.
    method ObserveStopped() returns (r: Outcome)
      requires Valid() && journal.Some? && journal.value.phase.Rank() >= StopIntent.Rank()
      modifies this
      ensures Valid() && journal.Some? && old(trace) <= trace
      ensures r.Done? ==> journal.value.phase.Rank() >= Stopped.Rank()
    {
      if * {
        return Interrupted;  // still loaded, still running, or still locked
      }
      r := Done;
      if journal.value.phase.StopIntent? {
        r := Advance(SeenStopped);
      }
      JournalStays(old(trace), trace);
      hide Lawful, RecordNative, RecordLogout, Durable;
    }

    /// Binds the native identity and revokes it, or verifies that there is none.
    method Revoke() returns (r: Outcome)
      requires Valid() && journal.Some? && journal.value.phase.Stopped? && journal.value.captured
      modifies this
      ensures Valid() && journal.Some? && old(trace) <= trace
      ensures r.Done? ==> journal.value.phase.Revoked?
    {
      var native: Option<Identity>, result: Logout := *, *;
      r := Advance(Recorded(native));
      JournalStays(old(trace), trace);
      if !r.Done? {
        return;
      }
      ghost var recorded := trace;
      if journal.value.expected.None? {
        RecordedAbsence(old(journal).value, native);
        r := Save(AbsentRevoked, journal.value.(phase := Revoked));
      } else {
        r := Advance(LoggedOut(result));
      }
      JournalStays(recorded, trace);
      hide Lawful, Durable;
    }

    /// A whole run. When it comes to the cleanup, the guard of the cleanup holds.
    method Run(recover: bool) returns (r: Outcome)
      requires Valid()
      modifies this
      ensures Valid() && old(trace) <= trace && Sends(trace) <= 1
      ensures r.Done? ==> journal.Some? && MayClean(journal.value)
      ensures r.Done? ==> journal.value.remote == Some(Confirmed) || ClosedWithoutRemote(journal.value)
    {
      r := Open(recover);
      if r.Done? {
        r := Admit();
      }
      if r.Done? {
        r := RequestStop();
      }
      if r.Done? {
        r := ObserveStopped();
      }
      if r.Done? {
        r := Finish();
      }
      StopIsSentOnce(trace);
      hide Lawful, Satisfied, Durable, ClosedWithoutRemote;
    }

    /// Capture, revocation and removal of the native item.
    method Finish() returns (r: Outcome)
      requires Valid() && journal.Some? && journal.value.phase.Rank() >= Stopped.Rank()
      modifies this
      ensures Valid() && old(trace) <= trace
      ensures r.Done? ==> journal.Some? && MayClean(journal.value)
      ensures r.Done? ==> journal.value.remote == Some(Confirmed) || ClosedWithoutRemote(journal.value)
    {
      r := Done;
      if journal.value.phase.Stopped? && !journal.value.captured {
        r := Advance(Captured);
      }
      if r.Done? && journal.value.phase.Stopped? {
        r := Revoke();
      }
      if r.Done? && journal.value.phase.Revoked? && !journal.value.storeRemoved {
        r := Advance(StoreRemoved);
      }
      if r.Done? {
        RevokedIsSatisfied(trace);
      }
      hide Lawful, Satisfied, RecordNative, RecordLogout, Durable, ClosedWithoutRemote;
    }
  }

  /// A journal, once there, is never lost.
  lemma JournalStays(p: Trace, t: Trace)
    requires Lawful(t) && p <= t && Durable(p).Some?
    ensures Durable(t).Some? && Durable(t).value.phase.Rank() >= Durable(p).value.phase.Rank()
  {
    assert t[..|p|] == p;
    JournalsFollow(t, |p|);
  }

  lemma RecordedAbsence(j: Journal, native: Option<Identity>)
    requires j.expected.None? && RecordNative(j, native).Some?
    ensures RecordNative(j, native).value.absenceVerified
  {
  }
}
