// The cleanup of an uninstall as the program runs it: one durable effect after
// the other, each of which may be the last before a crash. Every method keeps
// the state resumable and its goal fixed, and none of them ever meets one of the
// program's own refusals.

module UninstallCleanup {
  import opened Basics
  import opened FileTrees
  import opened UninstallState
  import opened UninstallEffects
  import opened CleanupFacts

  /// `Interrupted` is a crash, a failed system call, or a process that still uses a file.
  datatype Outcome = Done | Interrupted | Refused

  class Cleaner {
    var disk: Disk
    const acknowledged: set<nat>
    const reliable: bool  // no crash, no failed call and no file still in use

    constructor (found: Disk, known: set<nat>, undisturbed: bool)
      ensures disk == found && acknowledged == known && reliable == undisturbed
    {
      disk := found;
      acknowledged := known;
      reliable := undisturbed;
    }

    /// No refusal of the program's own, and without interruption no stop before the end.
    predicate Proceeds(r: Outcome) {
      !r.Refused? && (reliable ==> r.Done?)
    }

    ghost predicate Going()
      reads this
    {
      disk.journal.Some? && JournalReady(disk, disk.journal.value, acknowledged)
    }

    /// One durable effect, or the end of this run before it.
    method Effect(next: Disk) returns (r: Outcome)
      modifies this
      ensures disk == next || (disk == old(disk) && r.Interrupted?)
      ensures Proceeds(r)
    {
      var lands: bool, confirmed: bool := *, *;
      r := Interrupted;
      if lands || reliable {
        disk := next;
        if confirmed || reliable {
          r := Done;
        }
      }
    }

    // ---- Trees -------------------------------------------------------------

    /// Removes the listed entries in order; a directory that still holds something refuses.
    method Erase(place: Place, list: seq<Path>) returns (r: Outcome, ghost gone: set<Path>)
      requires place in disk.trees && Removable(disk.trees[place], list)
      modifies this
      ensures Proceeds(r) && gone <= Elements(list) && disk == Without(old(disk), place, gone)
      ensures r.Done? ==> gone == Elements(list)
    {
      gone := {};
      WithoutNothing(disk, place);
      for k := 0 to |list|
        invariant place in disk.trees && gone == Elements(list[..k]) && disk == Without(old(disk), place, gone)
      {
        var p := list[k];
        assert list[..k + 1] == list[..k] + [p];
        WithoutMore(old(disk), place, gone, p);
        if p in disk.trees[place] {
          if disk.trees[place][p].Directory? && !EmptyAt(disk.trees[place], p) {
            return Refused, gone;
          }
          var next := Without(disk, place, {p});
          r := Effect(next);
          if !r.Done? {
            gone := if disk == next then gone + {p} else gone;
            return;
          }
        }
        gone := gone + {p};
      }
      assert list[..|list|] == list;
      r := Done;
    }

    /// `prune_remove_quarantine_exact`: removes what the inventory lists, then the root.
    method RemoveExact(place: Place, inventory: Inventory) returns (r: Outcome, ghost gone: set<Path>)
      requires place in disk.trees
      modifies this
      // One foreign entry, a changed file included, and nothing is removed.
      ensures r.Refused? <==> Unsound(old(disk).trees[place], inventory, true)
      ensures reliable ==> !r.Interrupted?
      ensures r.Refused? ==> disk == old(disk)
      ensures disk == Without(old(disk), place, gone) || disk == old(disk).(trees := old(disk).trees - {place})
      ensures r.Done? ==> disk == old(disk).(trees := old(disk).trees - {place})
    {
      gone := {};
      WithoutNothing(disk, place);
      var t := disk.trees[place];
      InventoriedExactly(t, inventory, true);
      if !Inventoried(t, inventory, true) {
        return Refused, gone;
      }
      var files := FilesOf(t);
      var unsorted := ListOf(ImpliedDirectories(inventory));
      var dirs := SortDeepestFirst(unsorted);
      FilesThenDirectories(t, files, dirs);
      r, gone := Erase(place, files + dirs);
      if !r.Done? {
        return;
      }
      assert forall p <- t :: p in Elements(files + dirs);
      assert t - gone == map[];
      if disk.trees[place] != map[] {
        return Refused, gone;
      }
      var next := disk.(trees := disk.trees - {place});
      assert next == old(disk).(trees := old(disk).trees - {place});
      r := Effect(next);
    }

    /// Removes a tree whose deletion is already marked in the journal.
    method RemoveMarked(place: Place, inventory: Inventory) returns (r: Outcome)
      requires Going() && place in disk.trees && !place.State? && disk.journal.value.phase.Cleanup?
      requires MayErase(disk.journal.value, place, []) && Inventoried(disk.trees[place], inventory, true)
      modifies this
      ensures Proceeds(r) && Progress(old(disk), disk, acknowledged)
      ensures disk == old(disk).(trees := disk.trees) && disk.trees - {place} == old(disk).trees - {place}
      ensures r.Done? ==> place !in disk.trees
    {
      ghost var gone;
      InventoriedExactly(disk.trees[place], inventory, true);
      r, gone := RemoveExact(place, inventory);
      PartlyErased(old(disk), place, gone, acknowledged);
      hide Progress, JournalReady, Inventoried, MayErase, Unsound, Without;
    }

    // ---- Versions ----------------------------------------------------------

    method SaveJournal(k: Journal) returns (r: Outcome)
      requires Going() && MoreMarks(disk.trees, disk.journal.value, k)
      modifies this
      ensures Proceeds(r) && Progress(old(disk), disk, acknowledged)
      ensures disk == old(disk) || disk == old(disk).(journal := Some(k))
      ensures r.Done? ==> disk == old(disk).(journal := Some(k))
    {
      MakeMark(disk, disk.journal.value, k, acknowledged);
      AtRest(disk, acknowledged);
      r := Effect(disk.(journal := Some(k)));
      hide Progress, JournalReady, MoreMarks;
    }

    /// Renames a version into the quarantine, if it is still whole in its place.
    method RenameAside(v: Version) returns (r: Outcome)
      requires disk.journal.Some? && v in disk.journal.value.paths
      requires (Going() && disk.journal.value.phase.Cleanup? && disk.quarantine) || MoveRefused(disk, v)
      modifies this
      ensures MoveRefused(old(disk), v) ==> r.Refused? && disk == old(disk)
      ensures !MoveRefused(old(disk), v) ==>
        && Proceeds(r) && Progress(old(disk), disk, acknowledged)
        && OthersKept(old(disk), disk, v) && disk.journal == old(disk).journal
        && (r.Done? ==> Source(v) !in disk.trees && (v in disk.journal.value.moved || Quarantine(v) in disk.trees))
    {
      var j := disk.journal.value;
      if !MoveRefused(disk, v) {
        AtRest(disk, acknowledged);
        VersionsNotRefused(disk, v, acknowledged);
      }
      if Source(v) in disk.trees {
        InventoriedExactly(disk.trees[Source(v)], j.inventories[v], false);
        if v in j.moved || Quarantine(v) in disk.trees || !Inventoried(disk.trees[Source(v)], j.inventories[v], false) {
          return Refused;
        }
        var busy: bool := *;
        if busy && !reliable {
          return Interrupted;  // the version is still in use
        }
        Rename(disk, j, v, acknowledged);
        RenamedKeepsOthers(disk.trees, v);
        r := Effect(disk.(trees := Renamed(disk.trees, v)));
      } else {
        r := if v in j.moved || Quarantine(v) in disk.trees then Done else Refused;
      }
      hide Progress, Inventoried, JournalReady, Unsound;
    }

    /// Moves a version aside and marks it as moved.
    method MoveAside(v: Version) returns (r: Outcome)
      requires Going() && v in disk.journal.value.paths && disk.journal.value.phase.Cleanup? && disk.quarantine
      modifies this
      ensures Proceeds(r) && Progress(old(disk), disk, acknowledged)
      ensures OthersKept(old(disk), disk, v)
      ensures r.Done? ==> Source(v) !in disk.trees && v in disk.journal.value.moved
    {
      VersionsNotRefused(disk, v, acknowledged);
      r := RenameAside(v);
      StillGoing(old(disk), disk, acknowledged);
      if r.Done? && v !in disk.journal.value.moved {
        ghost var renamed := disk;
        var k := Moved(disk.journal.value, v);
        MovedMark(disk.trees, disk.journal.value, v);
        r := SaveJournal(k);
        Onward(old(disk), renamed, disk, acknowledged);
      }
      hide Finished, JournalReady, Goal, MoreMarks, Plan, Progress, MoveRefused, DeleteRefused;
    }

    /// Marks the deletion of a quarantined version as started.
    method MarkDeletion(v: Version) returns (r: Outcome)
      requires Going() && v in disk.journal.value.moved && Quarantine(v) in disk.trees
      modifies this
      ensures Proceeds(r) && Progress(old(disk), disk, acknowledged) && OthersKept(old(disk), disk, v)
      ensures disk.trees == old(disk).trees && disk.journal.value.paths == old(disk).journal.value.paths
      ensures disk.journal.value.moved == old(disk).journal.value.moved
      ensures disk.journal.value.inventories == old(disk).journal.value.inventories
      ensures r.Done? ==> v in disk.journal.value.deletingStarted
    {
      DeletingMark(disk.trees, disk.journal.value, v);
      r := SaveJournal(DeletingMarked(disk.journal.value, v));
      hide JournalReady, MoreMarks, Progress;
    }

    /// Deletes a quarantined version; a second run goes on where the first one stopped.
    method DeleteQuarantined(v: Version) returns (r: Outcome)
      requires disk.journal.Some? && v in disk.journal.value.paths
      requires DeleteRefused(disk, v) || (Going() && disk.journal.value.phase.Cleanup?
                                          && Source(v) !in disk.trees && v in disk.journal.value.moved)
      modifies this
      ensures DeleteRefused(old(disk), v) ==> r.Refused? && disk == old(disk)
      ensures !DeleteRefused(old(disk), v) ==>
        && Proceeds(r) && Progress(old(disk), disk, acknowledged) && OthersKept(old(disk), disk, v)
        && (r.Done? ==> Source(v) !in disk.trees && Quarantine(v) !in disk.trees)
    {
      if !DeleteRefused(disk, v) {
        AtRest(disk, acknowledged);
        VersionsNotRefused(disk, v, acknowledged);
      }
      if Quarantine(v) !in disk.trees {
        return Done;
      }
      var inventory := disk.journal.value.inventories[v];
      InventoriedExactly(disk.trees[Quarantine(v)], inventory, v in disk.journal.value.deletingStarted);
      if !Inventoried(disk.trees[Quarantine(v)], inventory, v in disk.journal.value.deletingStarted) {
        return Refused;
      }
      r := Done;
      if v !in disk.journal.value.deletingStarted {
        r := MarkDeletion(v);
      }
      if !r.Done? {
        return;
      }
      var busy: bool := *;
      if busy && !reliable {
        return Interrupted;  // the version is still in use
      }
      ghost var marked := disk;
      StillGoing(old(disk), disk, acknowledged);
      NothingGone(disk.trees[Quarantine(v)], inventory, v in old(disk).journal.value.deletingStarted);
      r := RemoveMarked(Quarantine(v), inventory);
      Onward(old(disk), marked, disk, acknowledged);
      SameElsewhere(marked, disk, v);
      OthersKeptTwice(old(disk), marked, disk, v);
      hide JournalReady, MoreMarks, Progress, Inventoried, Plan, Goal, Finished, OthersKept, Unsound,
        MoveRefused;
    }

    /// Removes one version: first aside, then for good.
    method RemoveVersion(v: Version) returns (r: Outcome)
      requires Going() && v in disk.journal.value.paths && disk.journal.value.phase.Cleanup? && disk.quarantine
      modifies this
      ensures Proceeds(r) && Progress(old(disk), disk, acknowledged) && OthersKept(old(disk), disk, v)
      ensures r.Done? ==> VersionGone(disk, v)
    {
      r := MoveAside(v);
      if r.Done? {
        ghost var aside := disk;
        StillGoing(old(disk), disk, acknowledged);
        SamePaths(old(disk).journal.value, disk.journal.value);
        VersionsNotRefused(disk, v, acknowledged);
        r := DeleteQuarantined(v);
        Onward(old(disk), aside, disk, acknowledged);
        OthersKeptTwice(old(disk), aside, disk, v);
      }
      hide JournalReady, MoreMarks, Progress, Inventoried, Plan, Goal, Finished, OthersKept, MoveRefused,
        DeleteRefused;
    }

    /// Removes the next version and leaves the earlier ones gone.
    method RemoveNext(i: nat) returns (r: Outcome)
      requires Going() && disk.journal.value.phase.Cleanup? && disk.quarantine && i < |disk.journal.value.paths|
      requires forall k :: 0 <= k < i ==> VersionGone(disk, disk.journal.value.paths[k])
      modifies this
      ensures Proceeds(r) && Progress(old(disk), disk, acknowledged) && Going()
      ensures disk.journal.value.phase.Cleanup? && disk.quarantine
      ensures disk.journal.value.paths == old(disk).journal.value.paths
      ensures r.Done? ==> forall k :: 0 <= k <= i ==> VersionGone(disk, disk.journal.value.paths[k])
    {
      var paths := disk.journal.value.paths;
      r := RemoveVersion(paths[i]);
      StillGoing(old(disk), disk, acknowledged);
      SamePaths(old(disk).journal.value, disk.journal.value);
      if r.Done? {
        EarlierGone(old(disk), disk, paths, i);
      }
      SameQuarantine(old(disk), disk, paths[i]);
      hide JournalReady, Progress, Plan, Goal, Finished, OthersKept, VersionGone;
    }

    /// Removes every inventoried version.
    method RemoveVersions() returns (r: Outcome)
      requires Going() && disk.journal.value.phase.Cleanup? && disk.quarantine
      modifies this
      ensures Proceeds(r) && Progress(old(disk), disk, acknowledged) && disk.quarantine
      ensures r.Done? ==> forall v <- disk.journal.value.paths :: VersionGone(disk, v)
    {
      AtRest(disk, acknowledged);
      var n := |disk.journal.value.paths|;
      for i := 0 to n
        invariant Progress(old(disk), disk, acknowledged) && Going() && disk.quarantine
        invariant disk.journal.value.phase.Cleanup? && |disk.journal.value.paths| == n
        invariant forall k :: 0 <= k < i ==> VersionGone(disk, disk.journal.value.paths[k])
      {
        ghost var was := disk;
        r := RemoveNext(i);
        Onward(old(disk), was, disk, acknowledged);
        if !r.Done? {
          return;
        }
      }
      r := Done;
      hide JournalReady, Progress, VersionGone;
    }

    /// Removes the empty quarantine directory.
    method CloseQuarantine() returns (r: Outcome)
      requires Going() && disk.quarantine && forall v <- disk.journal.value.paths :: VersionGone(disk, v)
      modifies this
      ensures Proceeds(r) && Progress(old(disk), disk, acknowledged)
      ensures r.Done? ==> Payload in Finished(disk)
    {
      AtRest(disk, acknowledged);
      OnlyPathsAreQuarantined(disk, acknowledged);
      if exists place <- disk.trees :: place.Quarantine? {
        return Refused;
      }
      var next := disk.(quarantine := false);
      ChangeFlags(disk, disk.journal.value, next, acknowledged);
      StillGoing(disk, next, acknowledged);
      OnlyPathsAreQuarantined(next, acknowledged);
      r := Effect(next);
      hide JournalReady, Progress, Plan, Goal, Finished;
    }

    // ---- The state directory -----------------------------------------------

    /// Checks every listed entry and sorts the present ones into files and directories.
    method CheckEntries() returns (ok: bool, files: seq<Path>, dirs: seq<Path>)
      requires disk.journal.Some? && State in disk.trees
      ensures ok <==> !Tampered(disk.trees[State], disk.journal.value)
      ensures ok ==> Sorted(disk.trees[State], disk.journal.value.entries, |disk.journal.value.entries|, files, dirs)
    {
      var t, j := disk.trees[State], disk.journal.value;
      EntriesReadyExactly(t, j);
      files, dirs := [], [];
      for n := 0 to |j.entries|
        invariant EntriesChecked(t, j, n) && Sorted(t, j.entries, n, files, dirs)
      {
        EntryChecked(t, j, n);
        if !EntryPasses(t, j, n) {
          return false, files, dirs;
        }
        SortedNext(t, j.entries, n, files, dirs);
        var path := j.entries[n].path;
        if path in t {
          if t[path].Directory? {
            dirs := dirs + [path];
          } else {
            files := files + [path];
          }
        }
      }
      CheckedIsReady(t, j, files, dirs);
      ok := ChildrenListed(t, dirs, Paths(j.entries));
      hide EntriesReady, EntryPasses, Sorted, ChildrenListed, DistinctEntries, Tampered;
    }

    /// `remove_state_entries`: checks everything, marks the deletion, then deletes
    /// files first and directories deepest first.
    method RemoveStateEntries() returns (r: Outcome, ghost gone: set<Path>)
      requires disk.journal.Some? && State in disk.trees
      modifies this
      // All or nothing: one changed, missing or unlisted entry, and no effect at all.
      ensures r.Refused? <==> Tampered(old(disk).trees[State], old(disk).journal.value)
      ensures reliable ==> !r.Interrupted?
      ensures r.Refused? ==> disk == old(disk)
      // Nothing but listed entries is removed, and only after the mark is durable.
      ensures gone <= Paths(old(disk).journal.value.entries)
      ensures (gone == {} && disk == old(disk)) || disk == Without(StateMarked(old(disk)), State, gone)
      ensures r.Done? ==> gone == PresentEntries(old(disk)) && disk == Without(StateMarked(old(disk)), State, gone)
    {
      gone := {};
      var ok, files, unsorted := CheckEntries();
      if !ok {
        return Refused, gone;
      }
      var dirs := SortDeepestFirst(unsorted);
      EntriesReadyExactly(disk.trees[State], disk.journal.value);
      ListedIsRemovable(disk.trees[State], disk.journal.value, files, unsorted, dirs);
      WithoutNothing(StateMarked(disk), State);
      r := Effect(StateMarked(disk));
      if r.Done? {
        r, gone := Erase(State, files + dirs);
      }
      hide EntriesReady, Sorted, Removable, Tampered;
    }

    /// Deletes the inventoried state, or what an earlier run has left of it.
    method RemoveEntries() returns (r: Outcome)
      requires Going()
      modifies this
      ensures Proceeds(r) && Progress(old(disk), disk, acknowledged)
      ensures r.Done? ==> Entries in Finished(disk)
    {
      ghost var gone;
      StateFacts(disk, acknowledged);
      AtRest(disk, acknowledged);
      EntriesReadyExactly(disk.trees[State], disk.journal.value);
      r, gone := RemoveStateEntries();
      EntriesProgress(old(disk), gone, acknowledged);
      if r.Done? {
        EntriesGone(old(disk), acknowledged);
      }
      hide JournalReady, Progress, EntriesReady, NamedReady, WorkResolved, StageReady, Finished, Tampered;
    }

    /// Removes named files of the state directory.
    method RemoveNamed(path: Path) returns (r: Outcome)
      requires path in {SOCKET, RECEIPT, OWNED}
      requires NamedRefused(disk, path) || (Going() && disk.journal.value.phase.Cleanup?)
      modifies this
      ensures NamedRefused(old(disk), path) ==> r.Refused? && disk == old(disk)
      ensures !NamedRefused(old(disk), path) ==>
        && Proceeds(r) && Progress(old(disk), disk, acknowledged) && State in old(disk).trees && State in disk.trees
        && disk.trees[State].Keys <= old(disk).trees[State].Keys && (r.Done? ==> path !in disk.trees[State])
    {
      if !NamedRefused(disk, path) {
        StateFacts(disk, acknowledged);
        AtRest(disk, acknowledged);
      }
      var t := disk.trees[State];
      if path !in t {
        return Done;
      }
      if if path == SOCKET then !t[path].Socket? else !t[path].File? {
        return Refused;
      }
      HelperIsNotListed(t, disk.journal.value);
      EraseFromState(disk, disk.journal.value, {path}, acknowledged);
      r := Effect(Without(disk, State, {path}));
      hide JournalReady, Progress, EntriesReady, WorkResolved, StageReady, Finished;
    }

    // ---- Everything else ---------------------------------------------------

    /// Removes one thing outside the trees.
    method Clear(next: Disk, ghost task: Task) returns (r: Outcome)
      requires Going() && Cleared(next, disk.journal.value, task) && next.journal == disk.journal
      requires Progress(disk, next, acknowledged)
      modifies this
      ensures Proceeds(r) && Progress(old(disk), disk, acknowledged)
      ensures r.Done? ==> task in Finished(disk)
    {
      AtRest(disk, acknowledged);
      r := Effect(next);
      hide JournalReady, Progress;
    }

    /// The work owner's resources, whose removal the phase is not yet past.
    method RemoveWork() returns (r: Outcome)
      requires Going()
      modifies this
      ensures Proceeds(r) && Progress(old(disk), disk, acknowledged)
      ensures r.Done? ==> Work in Finished(disk)
    {
      ChangeFlags(disk, disk.journal.value, disk.(work := false), acknowledged);
      r := Clear(disk.(work := false), Work);
      hide JournalReady, Progress, Finished;
    }

    method RemoveAgent() returns (r: Outcome)
      requires Going() || AgentRefused(disk)
      modifies this
      ensures AgentRefused(old(disk)) ==> r.Refused? && disk == old(disk)
      ensures !AgentRefused(old(disk)) ==>
        Proceeds(r) && Progress(old(disk), disk, acknowledged) && (r.Done? ==> Agent in Finished(disk))
    {
      if disk.agent.Some? && disk.agent.value != disk.journal.value.agentDigest {
        return Refused;
      }
      ChangeFlags(disk, disk.journal.value, disk.(agent := None), acknowledged);
      r := Clear(disk.(agent := None), Agent);
      hide JournalReady, Progress, Finished, EntriesReady, NamedReady, WorkResolved, StageReady;
    }

    method RemoveResources() returns (r: Outcome)
      requires Going()
      modifies this
      ensures Proceeds(r) && Progress(old(disk), disk, acknowledged)
      ensures r.Done? ==> Resources in Finished(disk)
    {
      ChangeFlags(disk, disk.journal.value, disk.(resources := false), acknowledged);
      r := Clear(disk.(resources := false), Resources);
      hide JournalReady, Progress, Finished;
    }

    method RemoveCurrent() returns (r: Outcome)
      requires Going() || CurrentRefused(disk)
      modifies this
      ensures CurrentRefused(old(disk)) ==> r.Refused? && disk == old(disk)
      ensures !CurrentRefused(old(disk)) ==>
        Proceeds(r) && Progress(old(disk), disk, acknowledged) && (r.Done? ==> Currently in Finished(disk))
    {
      if disk.current.NotALink? || (disk.current.Link? && disk.current.v != disk.journal.value.target) {
        return Refused;
      }
      ChangeFlags(disk, disk.journal.value, disk.(current := NoCurrent), acknowledged);
      r := Clear(disk.(current := NoCurrent), Currently);
      hide JournalReady, Progress, Finished, EntriesReady, NamedReady, WorkResolved, StageReady;
    }

    /// The staged payload of a recovery.
    method RemoveStage() returns (r: Outcome)
      requires StageRefused(disk) || (Going() && disk.journal.value.phase.Cleanup?)
      modifies this
      ensures StageRefused(old(disk)) ==> r.Refused? && disk == old(disk)
      ensures !StageRefused(old(disk)) ==>
        Proceeds(r) && Progress(old(disk), disk, acknowledged) && (r.Done? ==> Staged in Finished(disk))
    {
      if !StageRefused(disk) {
        AtRest(disk, acknowledged);
      }
      var j := disk.journal.value;
      if j.recovery.None? || Stage !in disk.trees {
        StageGone(disk);
        return Done;
      }
      InventoriedExactly(disk.trees[Stage], j.recovery.value.files, j.recovery.value.deletingStarted);
      if !Inventoried(disk.trees[Stage], j.recovery.value.files, j.recovery.value.deletingStarted) {
        return Refused;
      }
      MarkedStage(disk.trees, j);
      r := SaveJournal(j.(recovery := Some(j.recovery.value.(deletingStarted := true))));
      if r.Done? {
        ghost var marked := disk;
        StillGoing(old(disk), disk, acknowledged);
        NothingGone(disk.trees[Stage], j.recovery.value.files, j.recovery.value.deletingStarted);
        r := RemoveMarked(Stage, j.recovery.value.files);
        Onward(old(disk), marked, disk, acknowledged);
        if r.Done? {
          StageGone(disk);
        }
      }
      hide JournalReady, Progress, Finished, EntriesReady, NamedReady, WorkResolved, Inventoried, MoreMarks, Plan,
        Goal, Unsound;
    }

    // ---- The whole cleanup -------------------------------------------------

    /// The checks before anything is removed, and the phase that admits removal.
    method Prepare() returns (r: Outcome)
      requires Going() || CleanupRefused(disk, acknowledged)
      modifies this
      // Before the revocation is satisfied and all work is over, nothing is removed.
      ensures CleanupRefused(old(disk), acknowledged) ==> r.Refused? && disk == old(disk)
      ensures !CleanupRefused(old(disk), acknowledged) ==>
        && Proceeds(r) && Progress(old(disk), disk, acknowledged)
        && (r.Done? ==> Work in Finished(disk) && disk.journal.value.phase.Cleanup?)
    {
      if !CleanupRefused(disk, acknowledged) {
        StateFacts(disk, acknowledged);
        AtRest(disk, acknowledged);
      }
      ResolvedExactly(disk.trees[State], acknowledged);
      var j := disk.journal.value;
      if !(j.phase.Revoked? || j.phase.Cleanup?) || !j.Admitted()
         || (!j.stateDeletingStarted && !WorkResolved(disk.trees[State], acknowledged)) {
        return Refused;
      }
      r := RemoveWork();
      StillGoing(old(disk), disk, acknowledged);
      if r.Done? {
        ghost var cleared := disk;
        MarkedCleanup(disk.trees, disk.journal.value);
        r := SaveJournal(disk.journal.value.(phase := Cleanup));
        Onward(old(disk), cleared, disk, acknowledged);
        StillGoing(cleared, disk, acknowledged);
      }
      hide JournalReady, Progress, Finished, EntriesReady, NamedReady, WorkResolved, StageReady, MoreMarks, Plan,
        Goal, Unresolved;
    }

    /// All versions, between the opening and the removal of the quarantine.
    method RemovePayload() returns (r: Outcome)
      requires Going() && disk.journal.value.phase.Cleanup? && Work in Finished(disk)
      modifies this
      ensures Proceeds(r) && Resumable(old(disk), disk, acknowledged)
      ensures r.Done? ==> Work in Finished(disk) && Payload in Finished(disk)
    {
      ghost var was := disk;
      OpenQuarantine(disk, disk.journal.value, acknowledged);
      AtRest(disk, acknowledged);
      OpenedKeepsWork(disk);
      r := Effect(disk.(quarantine := true));
      if r.Done? {
        ghost var created := disk;
        ResumedGoing(was, created, acknowledged);
        r := RemoveVersions();
        StillGoing(created, disk, acknowledged);
        Further(was, created, disk, acknowledged);
        if r.Done? {
          ghost var emptied := disk;
          r := CloseQuarantine();
          StillGoing(emptied, disk, acknowledged);
          Further(was, emptied, disk, acknowledged);
        }
      } else {
        ResumedWeak(was, was, acknowledged);
      }
      hide JournalReady, Progress, Resumable, Finished, VersionGone, Plan, Goal;
    }

    /// Everything but the versions, in the order of the source.
    method RemoveRest() returns (r: Outcome)
      requires Going() && disk.journal.value.phase.Cleanup? && Work in Finished(disk) && Payload in Finished(disk)
      modifies this
      ensures Proceeds(r) && Progress(old(disk), disk, acknowledged)
      ensures r.Done? ==> forall task: Task :: task in Finished(disk)
    {
      r := RemoveOwnedFiles();
      StillGoing(old(disk), disk, acknowledged);
      if r.Done? {
        ghost var halfway := disk;
        r := RemoveLast();
        Onward(old(disk), halfway, disk, acknowledged);
        StillGoing(halfway, disk, acknowledged);
        if r.Done? {
          AllTasks(Finished(disk));
        }
      }
      hide JournalReady, Progress, Finished, Plan, Goal;
    }

    /// The staged payload, the agent, the operation's resources, and the inventoried state.
    method RemoveOwnedFiles() returns (r: Outcome)
      requires Going() && disk.journal.value.phase.Cleanup?
      modifies this
      ensures Proceeds(r) && Progress(old(disk), disk, acknowledged)
      ensures r.Done? ==>
        Staged in Finished(disk) && Agent in Finished(disk) && Resources in Finished(disk) && Entries in Finished(disk)
    {
      r := RemoveStageAndAgent();
      StillGoing(old(disk), disk, acknowledged);
      if r.Done? {
        ghost var halfway := disk;
        r := RemoveResourcesAndEntries();
        Onward(old(disk), halfway, disk, acknowledged);
        StillGoing(halfway, disk, acknowledged);
      }
      hide JournalReady, Progress, Finished, Plan, Goal;
    }

    /// First the recovery payload, then the launch agent.
    method RemoveStageAndAgent() returns (r: Outcome)
      requires Going() && disk.journal.value.phase.Cleanup?
      modifies this
      ensures Proceeds(r) && Progress(old(disk), disk, acknowledged)
      ensures r.Done? ==> Staged in Finished(disk) && Agent in Finished(disk)
    {
      NothingRefused(disk, acknowledged);
      r := RemoveStage();
      StillGoing(old(disk), disk, acknowledged);
      if r.Done? {
        ghost var halfway := disk;
        NothingRefused(disk, acknowledged);
        r := RemoveAgent();
        Onward(old(disk), halfway, disk, acknowledged);
        StillGoing(halfway, disk, acknowledged);
      }
      hide JournalReady, Progress, Finished, Plan, Goal;
    }

    /// Temporary files of the prior operation, then the inventoried state.
    method RemoveResourcesAndEntries() returns (r: Outcome)
      requires Going()
      modifies this
      ensures Proceeds(r) && Progress(old(disk), disk, acknowledged)
      ensures r.Done? ==> Resources in Finished(disk) && Entries in Finished(disk)
    {
      r := RemoveResources();
      StillGoing(old(disk), disk, acknowledged);
      if r.Done? {
        ghost var halfway := disk;
        r := RemoveEntries();
        Onward(old(disk), halfway, disk, acknowledged);
        StillGoing(halfway, disk, acknowledged);
      }
      hide JournalReady, Progress, Finished, Plan, Goal;
    }

    /// The socket and the current pointer, and the receipts last.
    method RemoveLast() returns (r: Outcome)
      requires Going() && disk.journal.value.phase.Cleanup?
      modifies this
      ensures Proceeds(r) && Progress(old(disk), disk, acknowledged)
      ensures r.Done? ==> Socketed in Finished(disk) && Currently in Finished(disk) && Receipts in Finished(disk)
    {
      r := RemoveSocketAndCurrent();
      StillGoing(old(disk), disk, acknowledged);
      if r.Done? {
        ghost var halfway := disk;
        NothingRefused(disk, acknowledged);
        r := RemoveReceipts();
        Onward(old(disk), halfway, disk, acknowledged);
        StillGoing(halfway, disk, acknowledged);
      }
      hide JournalReady, Progress, Finished, Plan, Goal;
    }

    /// What the stopped daemon has left behind.
    method RemoveSocketAndCurrent() returns (r: Outcome)
      requires Going() && disk.journal.value.phase.Cleanup?
      modifies this
      ensures Proceeds(r) && Progress(old(disk), disk, acknowledged)
      ensures r.Done? ==> Socketed in Finished(disk) && Currently in Finished(disk)
    {
      r := RemoveSocket();
      StillGoing(old(disk), disk, acknowledged);
      if r.Done? {
        ghost var halfway := disk;
        NothingRefused(disk, acknowledged);
        r := RemoveCurrent();
        Onward(old(disk), halfway, disk, acknowledged);
        StillGoing(halfway, disk, acknowledged);
      }
      hide JournalReady, Progress, Finished, Plan, Goal;
    }

    method RemoveSocket() returns (r: Outcome)
      requires Going() && disk.journal.value.phase.Cleanup?
      modifies this
      ensures Proceeds(r) && Progress(old(disk), disk, acknowledged)
      ensures r.Done? ==> Socketed in Finished(disk)
    {
      NothingRefused(disk, acknowledged);
      r := RemoveNamed(SOCKET);
      StillGoing(old(disk), disk, acknowledged);
      if r.Done? {
        SocketGone(disk);
      }
      hide JournalReady, Progress, Finished, Plan, Goal;
    }

    method RemoveReceipts() returns (r: Outcome)
      requires HelperRefused(disk) || (Going() && disk.journal.value.phase.Cleanup?)
      modifies this
      // Without the helper that must finish the uninstall, no receipt is removed.
      ensures HelperRefused(old(disk)) ==> r.Refused? && disk == old(disk)
      ensures !HelperRefused(old(disk)) ==>
        Proceeds(r) && Progress(old(disk), disk, acknowledged) && (r.Done? ==> Receipts in Finished(disk))
    {
      if !HelperRefused(disk) {
        StateFacts(disk, acknowledged);
        AtRest(disk, acknowledged);
        NothingRefused(disk, acknowledged);
      }
      var t := disk.trees[State];
      if HELPER !in t || !t[HELPER].File? || t[HELPER].content != disk.journal.value.helperDigest {
        return Refused;
      }
      r := RemoveNamed(RECEIPT);
      StillGoing(old(disk), disk, acknowledged);
      if r.Done? {
        ghost var a := disk;
        r := RemoveOwned();
        Onward(old(disk), a, disk, acknowledged);
      }
      hide JournalReady, Progress, Finished, Plan, Goal, EntriesReady, StageReady, WorkResolved, NamedReady;
    }

    method RemoveOwned() returns (r: Outcome)
      requires Going() && disk.journal.value.phase.Cleanup? && State in disk.trees && RECEIPT !in disk.trees[State]
      modifies this
      ensures Proceeds(r) && Progress(old(disk), disk, acknowledged)
      ensures r.Done? ==> Receipts in Finished(disk)
    {
      NothingRefused(disk, acknowledged);
      r := RemoveNamed(OWNED);
      if r.Done? {
        StillGoing(old(disk), disk, acknowledged);
        ReceiptsGone(old(disk), disk);
      }
      hide JournalReady, Progress, Finished, Plan, Goal;
    }

    // ---- The terminal handover ---------------------------------------------

    /// Removes the helper, the fence and, last of all, the marker.
    method Unwind(m: Journal) returns (r: Outcome)
      requires AtMarker(disk, m, acknowledged)
      modifies this
      ensures Proceeds(r) && Continues(old(disk), disk, acknowledged)
      ensures r.Done? ==> disk == Goal(old(disk))
    {
      MarkerContinues(disk, disk, m, acknowledged);
      HelperGone(disk, m, acknowledged);
      MarkerContinues(disk, Without(disk, State, {HELPER}), m, acknowledged);
      r := Effect(Without(disk, State, {HELPER}));
      if r.Done? {
        ghost var helped := disk;
        FenceGone(disk, m, acknowledged);
        r := UnwindFence(m);
        ContinuesTwice(old(disk), helped, disk, acknowledged);
      }
      hide MarkerReady, Goal, Ready, Continues;
    }

    method UnwindFence(m: Journal) returns (r: Outcome)
      requires AtMarker(disk, m, acknowledged) && State in disk.trees && HELPER !in disk.trees[State]
      modifies this
      ensures Proceeds(r) && Continues(old(disk), disk, acknowledged)
      ensures r.Done? ==> disk == Goal(old(disk))
    {
      MarkerContinues(disk, disk, m, acknowledged);
      FenceGone(disk, m, acknowledged);
      var next := disk.(fence := FinalFence(disk.evidence));
      MarkerContinues(disk, next, m, acknowledged);
      r := Effect(next);
      if r.Done? {
        MarkerGone(disk, m, acknowledged);
        AtTheEnd(disk);
        r := Effect(disk.(marker := None));
      }
      hide MarkerReady, Goal, JournalReady;
    }

    /// The marker takes over from the journal.
    method HandOver() returns (r: Outcome)
      requires Going() && disk.fence.Ours? && forall task: Task :: task in Finished(disk)
      modifies this
      ensures Proceeds(r) && Continues(old(disk), disk, acknowledged)
      ensures r.Done? ==> disk == Goal(old(disk))
    {
      var j := disk.journal.value;
      var m := j.(phase := Terminal);
      AtRest(disk, acknowledged);
      ChangeFlags(disk, j, disk.(marker := Some(m)), acknowledged);
      r := Effect(disk.(marker := Some(m)));
      ResumedWeak(old(disk), disk, acknowledged);
      ProgressContinues(old(disk), disk, acknowledged);
      if r.Done? {
        ghost var marked := disk;
        StillGoing(old(disk), disk, acknowledged);
        HandOverReady(disk, j, acknowledged);
        r := Effect(disk.(journal := None));
        if r.Done? {
          ghost var handed := disk;
          r := Unwind(m);
          ContinuesTwice(marked, handed, disk, acknowledged);
          ContinuesTwice(old(disk), marked, disk, acknowledged);
        } else if disk != marked {
          MarkerContinues(old(disk), disk, m, acknowledged);
        }
      }
      hide MarkerReady, Goal, JournalReady, Progress, Finished, Ready, Continues, AtMarker;
    }

    /// `finish_terminal`: a run that finds only the marker finishes the handover.
    method FinishTerminal(m: Journal) returns (r: Outcome)
      requires AtMarker(disk, m, acknowledged) || MarkerRefused(disk, m, acknowledged)
      modifies this
      ensures MarkerRefused(old(disk), m, acknowledged) ==> r.Refused? && disk == old(disk)
      ensures !MarkerRefused(old(disk), m, acknowledged) ==>
        Proceeds(r) && Continues(old(disk), disk, acknowledged) && (r.Done? ==> disk == Goal(old(disk)))
    {
      if !MarkerRefused(disk, m, acknowledged) {
        MarkerFacts(disk, m, acknowledged);
      }
      ResolvedExactly(disk.trees[State], acknowledged);
      var t := disk.trees[State];
      if !m.phase.Terminal? || !m.Admitted() || RECEIPT in t || OWNED in t || !disk.current.NoCurrent? {
        return Refused;
      }
      if !m.stateDeletingStarted && !WorkResolved(t, acknowledged) {
        return Refused;
      }
      if HELPER in t && !(t[HELPER].File? && t[HELPER].content == m.helperDigest) {
        return Refused;
      }
      r := Unwind(m);
      hide MarkerReady, Goal, Continues, WorkResolved, Unresolved;
    }

    /// Everything after the journal has been found valid.
    method CleanUp() returns (r: Outcome)
      requires Going() && disk.fence.Ours?
      modifies this
      ensures Proceeds(r) && Continues(old(disk), disk, acknowledged)
      ensures r.Done? ==> disk == Goal(old(disk))
    {
      ghost var was := disk;
      NothingRefused(disk, acknowledged);
      r := Prepare();
      StillGoing(was, disk, acknowledged);
      ResumedWeak(was, disk, acknowledged);
      if r.Done? {
        ghost var prepared := disk;
        r := RemoveAll();
        ContinuesTwice(was, prepared, disk, acknowledged);
      } else {
        ProgressContinues(was, disk, acknowledged);
      }
      hide JournalReady, Progress, Resumable, Finished, Plan, Goal, Continues;
    }

    method RemoveAll() returns (r: Outcome)
      requires Going() && disk.journal.value.phase.Cleanup? && Work in Finished(disk) && disk.fence.Ours?
      modifies this
      ensures Proceeds(r) && Continues(old(disk), disk, acknowledged)
      ensures r.Done? ==> disk == Goal(old(disk))
    {
      ghost var was := disk;
      r := RemovePayload();
      ResumedGoing(was, disk, acknowledged);
      ProgressContinues(was, disk, acknowledged);
      if r.Done? {
        ghost var emptied := disk;
        r := RemoveRestAndHandOver();
        ContinuesTwice(was, emptied, disk, acknowledged);
      }
      hide JournalReady, Progress, Resumable, Finished, Plan, Goal, Continues;
    }

    method RemoveRestAndHandOver() returns (r: Outcome)
      requires Going() && disk.journal.value.phase.Cleanup?
      requires Work in Finished(disk) && Payload in Finished(disk) && disk.fence.Ours?
      modifies this
      ensures Proceeds(r) && Continues(old(disk), disk, acknowledged)
      ensures r.Done? ==> disk == Goal(old(disk))
    {
      ghost var was := disk;
      r := RemoveRest();
      StillGoing(was, disk, acknowledged);
      ResumedWeak(was, disk, acknowledged);
      ProgressContinues(was, disk, acknowledged);
      if r.Done? {
        ghost var removed := disk;
        r := HandOver();
        ContinuesTwice(was, removed, disk, acknowledged);
      }
      hide JournalReady, Progress, Resumable, Finished, Plan, Goal, Continues;
    }

    /// One run of the uninstall after its revocation, from whatever an earlier
    /// run has left. It meets none of its own refusals, unless an earlier run had
    /// finished and there is nothing left to uninstall.
    method Resume() returns (r: Outcome)
      requires Ready(disk, acknowledged) || (disk.journal.Some? && Invalid(disk, disk.journal.value))
      modifies this
      ensures !r.Refused? ==> Continues(old(disk), disk, acknowledged)
      // It refuses exactly an installation that is gone, and a journal that its files do not bear out.
      ensures r.Refused? <==>
        if old(disk).journal.Some? then Invalid(old(disk), old(disk).journal.value) else old(disk).marker.None?
      ensures reliable ==> !r.Interrupted?
      ensures r.Refused? ==> disk == old(disk)
      ensures r.Done? ==> disk == Goal(old(disk))
    {
      if disk.journal.None? {
        if disk.marker.None? {
          return Refused;
        }
        MarkerNotRefused(disk, disk.marker.value, acknowledged);
        r := FinishTerminal(disk.marker.value);
        return;
      }
      ValidExactly(disk, disk.journal.value);
      if !Invalid(disk, disk.journal.value) {
        ReadyIsValid(disk, disk.journal.value, acknowledged);
      }
      if !ValidJournal(disk, disk.journal.value) {
        return Refused;
      }
      r := Fenced();
      hide JournalReady, MarkerReady, Goal, ValidJournal, Invalid, MarkerRefused;
    }

    /// The lifecycle fence is taken, or still held, before the cleanup.
    method Fenced() returns (r: Outcome)
      requires Going()
      modifies this
      ensures Proceeds(r) && Continues(old(disk), disk, acknowledged)
      ensures r.Done? ==> disk == Goal(old(disk))
    {
      ghost var was := disk;
      AtRest(disk, acknowledged);
      ChangeFlags(disk, disk.journal.value, disk.(fence := Ours), acknowledged);
      r := Effect(disk.(fence := Ours));
      StillGoing(was, disk, acknowledged);
      ResumedWeak(was, disk, acknowledged);
      ProgressContinues(was, disk, acknowledged);
      if r.Done? {
        ghost var held := disk;
        r := CleanUp();
        ContinuesTwice(was, held, disk, acknowledged);
      }
      hide JournalReady, Progress, Resumable, Finished, Plan, Goal, Continues;
    }

    /// Run again and again after every interruption: no run is refused before one
    /// has finished, and the end is the one that a single run would have reached.
    method RunAgain(attempts: nat) returns (r: Outcome)
      requires Ready(disk, acknowledged) && (disk.journal.Some? || disk.marker.Some?)
      modifies this
      ensures Continues(old(disk), disk, acknowledged)
      ensures r.Refused? ==> disk == Goal(old(disk))
      ensures r.Done? ==> disk == Goal(old(disk))
      ensures reliable && attempts > 0 ==> r.Done?
    {
      r := Interrupted;
      RestContinues(disk, acknowledged);
      for i := 0 to attempts
        invariant Continues(old(disk), disk, acknowledged) && r.Interrupted?
        invariant i == 0 ==> disk == old(disk)
        invariant reliable ==> i == 0
      {
        ghost var was := disk;
        NothingLeft(was);
        if was.journal.Some? {
          ReadyIsValid(was, was.journal.value, acknowledged);
          ValidExactly(was, was.journal.value);
        }
        RestContinues(was, acknowledged);
        r := Resume();
        ContinuesTwice(old(disk), was, disk, acknowledged);
        if !r.Interrupted? {
          return;
        }
      }
      hide Ready, Goal;
    }
  }
}
