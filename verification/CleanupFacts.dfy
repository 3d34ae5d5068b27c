// What the cleanup in UninstallCleanup.dfy relies on between its effects: orders
// of removal that never meet a full directory, facts that a resumable state
// provides, and the composition of partial runs.

module CleanupFacts {
  import opened Basics
  import opened FileTrees
  import opened UninstallState
  import opened UninstallEffects
  import Phases = UninstallPhases

  /// Every listed directory comes after all that it still holds.
  predicate Removable(t: Tree, list: seq<Path>) {
    forall k, p <- t :: 0 <= k < |list| && list[k] in t && t[list[k]].Directory? && Child(list[k], p) ==> p in list[..k]
  }

  function Elements(list: seq<Path>): set<Path> {
    set p | p in list
  }

  lemma WithoutNothing(d: Disk, place: Place)
    requires place in d.trees
    ensures Without(d, place, {}) == d
  {
    assert d.trees[place] - {} == d.trees[place];
    assert d.trees[place := d.trees[place]] == d.trees;
  }

  lemma OneMore(t: Tree, gone: set<Path>, p: Path)
    ensures (t - gone) - {p} == t - (gone + {p})
    ensures p !in t || p in gone ==> t - gone == t - (gone + {p})
  {
  }

  lemma WithoutMore(d: Disk, place: Place, gone: set<Path>, p: Path)
    requires place in d.trees
    ensures Without(Without(d, place, gone), place, {p}) == Without(d, place, gone + {p})
    ensures p !in d.trees[place] || p in gone ==> Without(d, place, gone) == Without(d, place, gone + {p})
  {
    OneMore(d.trees[place], gone, p);
  }

  lemma WithoutKeepsOthers(d: Disk, place: Place, gone: set<Path>)
    requires place in d.trees
    ensures Without(d, place, gone).trees - {place} == d.trees - {place}
  {
  }

  /// Nothing but this version and the marks in the journal differs.
  predicate OthersKept(d: Disk, e: Disk, v: Version) {
    && e == d.(journal := e.journal, trees := e.trees) && d.journal.Some? && e.journal.Some?
    && d.journal.value.phase == e.journal.value.phase
    && e.trees - {Source(v), Quarantine(v)} == d.trees - {Source(v), Quarantine(v)}
    && (Source(v) in e.trees ==> Source(v) in d.trees)
  }

  lemma RenamedKeepsOthers(trees: map<Place, Tree>, v: Version)
    requires Source(v) in trees
    ensures Renamed(trees, v) - {Source(v), Quarantine(v)} == trees - {Source(v), Quarantine(v)}
    ensures Source(v) !in Renamed(trees, v) && Quarantine(v) in Renamed(trees, v)
  {
  }

  lemma VersionFacts(d: Disk, v: Version, acknowledged: set<nat>)
    requires d.journal.Some? && JournalReady(d, d.journal.value, acknowledged) && v in d.journal.value.paths
    ensures VersionReady(d.trees, d.journal.value, v)
  {
    hide VersionReady, StageReady, EntriesReady, NamedReady, WorkResolved;
  }

  // ---- What a step refuses -------------------------------------------------

  /// A version that is in two places or in none, or whose files are not whole.
  predicate MoveRefused(d: Disk, v: Version) {
    d.journal.Some? && v in d.journal.value.inventories &&
    if Source(v) in d.trees then
      || v in d.journal.value.moved || Quarantine(v) in d.trees
      || Unsound(d.trees[Source(v)], d.journal.value.inventories[v], false)
    else
      v !in d.journal.value.moved && Quarantine(v) !in d.trees
  }

  /// A quarantined version with anything foreign in it, or not whole before its deletion.
  predicate DeleteRefused(d: Disk, v: Version) {
    && d.journal.Some? && v in d.journal.value.inventories && Quarantine(v) in d.trees
    && Unsound(d.trees[Quarantine(v)], d.journal.value.inventories[v], v in d.journal.value.deletingStarted)
  }

  predicate StageRefused(d: Disk) {
    && d.journal.Some? && d.journal.value.recovery.Some? && Stage in d.trees
    && Unsound(d.trees[Stage], d.journal.value.recovery.value.files, d.journal.value.recovery.value.deletingStarted)
  }

  predicate AgentRefused(d: Disk) {
    d.journal.Some? && d.agent.Some? && d.agent.value != d.journal.value.agentDigest
  }

  predicate CurrentRefused(d: Disk) {
    d.journal.Some? && d.current != NoCurrent && d.current != Link(d.journal.value.target)
  }

  /// A socket that is none, or a receipt that is no regular file.
  predicate NamedRefused(d: Disk, path: Path) {
    && d.journal.Some? && State in d.trees && path in d.trees[State]
    && (if path == SOCKET then !d.trees[State][path].Socket? else !d.trees[State][path].File?)
  }

  predicate HelperRefused(d: Disk) {
    && d.journal.Some? && State in d.trees
    && (HELPER !in d.trees[State] || Replaced(d.trees[State], HELPER, d.journal.value.helperDigest))
  }

  /// Not revoked, or the revocation not satisfied, or work not known to be over.
  predicate CleanupRefused(d: Disk, acknowledged: set<nat>) {
    && d.journal.Some? && State in d.trees
    && (var j := d.journal.value;
        || j.phase.Terminal? || !j.run.storeRemoved
        || !(j.run.remote == Some(Phases.Confirmed) || Phases.ClosedWithoutRemote(j.run))
        || (!j.stateDeletingStarted && Unresolved(d.trees[State], acknowledged)))
  }

  /// The marker is not the end of a cleanup, or something is back that it had removed.
  predicate MarkerRefused(d: Disk, m: Journal, acknowledged: set<nat>) {
    && State in d.trees
    && (|| !m.phase.Terminal? || !m.run.storeRemoved
        || !(m.run.remote == Some(Phases.Confirmed) || Phases.ClosedWithoutRemote(m.run))
        || RECEIPT in d.trees[State] || OWNED in d.trees[State] || d.current != NoCurrent
        || Replaced(d.trees[State], HELPER, m.helperDigest)
        || (!m.stateDeletingStarted && Unresolved(d.trees[State], acknowledged)))
  }

  /// In a resumable state none of this is so.
  lemma NothingRefused(d: Disk, acknowledged: set<nat>)
    requires d.journal.Some? && JournalReady(d, d.journal.value, acknowledged)
    ensures !StageRefused(d) && !AgentRefused(d) && !CurrentRefused(d) && !HelperRefused(d)
    ensures forall path :: path in {SOCKET, RECEIPT, OWNED} ==> !NamedRefused(d, path)
    ensures !CleanupRefused(d, acknowledged)
  {
    var j := d.journal.value;
    StateFacts(d, acknowledged);
    NamesAreSound(d.trees[State], j);
    ResolvedExactly(d.trees[State], acknowledged);
    if j.recovery.Some? && Stage in d.trees {
      InventoriedExactly(d.trees[Stage], j.recovery.value.files, j.recovery.value.deletingStarted);
    }
    hide JournalReady, EntriesReady, NamedReady, WorkResolved, Unresolved, Inventoried, Unsound;
  }

  lemma NamesAreSound(t: Tree, j: Journal)
    requires NamedReady(t, j)
    ensures HELPER in t && !Replaced(t, HELPER, j.helperDigest) && (SOCKET in t ==> t[SOCKET].Socket?)
    ensures (RECEIPT in t ==> t[RECEIPT].File?) && (OWNED in t ==> t[OWNED].File?)
    ensures RECEIPT != SOCKET && OWNED != SOCKET
  {
    assert |RECEIPT[0]| == 20 && |OWNED[0]| == 19 && |SOCKET[0]| == 12;
  }

  lemma VersionsNotRefused(d: Disk, v: Version, acknowledged: set<nat>)
    requires d.journal.Some? && JournalReady(d, d.journal.value, acknowledged) && v in d.journal.value.paths
    ensures v in d.journal.value.inventories && !MoveRefused(d, v) && !DeleteRefused(d, v)
  {
    var j := d.journal.value;
    VersionFacts(d, v, acknowledged);
    if Source(v) in d.trees {
      InventoriedExactly(d.trees[Source(v)], j.inventories[v], false);
    }
    if Quarantine(v) in d.trees {
      InventoriedExactly(d.trees[Quarantine(v)], j.inventories[v], v in j.deletingStarted);
    }
    hide JournalReady, Inventoried, Unsound;
  }

  function Moved(j: Journal, v: Version): Journal {
    j.(moved := j.moved + {v})
  }

  lemma MovedMark(trees: map<Place, Tree>, j: Journal, v: Version)
    requires Source(v) !in trees && (v in j.moved || Quarantine(v) in trees)
    ensures MoreMarks(trees, j, Moved(j, v))
  {
  }

  function DeletingMarked(j: Journal, v: Version): Journal {
    j.(deletingStarted := j.deletingStarted + {v})
  }

  lemma DeletingMark(trees: map<Place, Tree>, j: Journal, v: Version)
    requires Quarantine(v) in trees && v in j.moved
    ensures MoreMarks(trees, j, DeletingMarked(j, v))
  {
  }

  lemma OthersKeptTwice(a: Disk, b: Disk, c: Disk, v: Version)
    requires OthersKept(a, b, v) && OthersKept(b, c, v)
    ensures OthersKept(a, c, v)
  {
  }

  lemma SameElsewhere(d: Disk, e: Disk, v: Version)
    requires e == d.(trees := e.trees) && d.journal.Some?
    requires e.trees - {Quarantine(v)} == d.trees - {Quarantine(v)}
    ensures OthersKept(d, e, v)
  {
    var a, b := Source(v), Quarantine(v);
    assert e.trees - {a, b} == (e.trees - {b}) - {a};
    assert d.trees - {a, b} == (d.trees - {b}) - {a};
    assert a in e.trees <==> a in e.trees - {b};
    assert a in d.trees <==> a in d.trees - {b};
  }

  lemma NothingGone(t: Tree, inventory: Inventory, allowMissing: bool)
    requires Inventoried(t, inventory, allowMissing)
    ensures Inventoried(t, inventory, true)
  {
    hide Listed, ImpliedDirectories;
  }

  lemma OtherVersion(d: Disk, e: Disk, v: Version, w: Version)
    requires OthersKept(d, e, v) && w != v
    ensures Source(w) in e.trees <==> Source(w) in d.trees
    ensures Quarantine(w) in e.trees <==> Quarantine(w) in d.trees
  {
    assert Source(w) in e.trees <==> Source(w) in e.trees - {Source(v), Quarantine(v)};
    assert Source(w) in d.trees <==> Source(w) in d.trees - {Source(v), Quarantine(v)};
    assert Quarantine(w) in e.trees <==> Quarantine(w) in e.trees - {Source(v), Quarantine(v)};
    assert Quarantine(w) in d.trees <==> Quarantine(w) in d.trees - {Source(v), Quarantine(v)};
  }

  predicate VersionGone(d: Disk, v: Version) {
    Source(v) !in d.trees && Quarantine(v) !in d.trees
  }

  lemma EarlierGone(d: Disk, e: Disk, paths: seq<Version>, i: nat)
    requires i < |paths| && OthersKept(d, e, paths[i]) && VersionGone(e, paths[i])
    requires forall k :: 0 <= k < i ==> VersionGone(d, paths[k])
    ensures forall k :: 0 <= k <= i ==> VersionGone(e, paths[k])
  {
    forall k | 0 <= k < i && paths[k] != paths[i] ensures VersionGone(e, paths[k]) {
      OtherVersion(d, e, paths[i], paths[k]);
    }
    hide OthersKept;
  }

  lemma SameQuarantine(d: Disk, e: Disk, v: Version)
    requires OthersKept(d, e, v)
    ensures e.quarantine == d.quarantine
  {
  }

  lemma OnlyPathsAreQuarantined(d: Disk, acknowledged: set<nat>)
    requires d.journal.Some? && JournalReady(d, d.journal.value, acknowledged)
    requires forall v <- d.journal.value.paths :: VersionGone(d, v)
    ensures forall place <- d.trees :: !place.Quarantine?
    ensures !d.quarantine ==> Payload in Finished(d)
  {
    hide VersionReady, StageReady, EntriesReady, NamedReady, WorkResolved;
  }

  lemma SamePaths(j: Journal, k: Journal)
    requires Plan(j) == Plan(k)
    ensures j.paths == k.paths && j.entries == k.entries && j.target == k.target && j.agentDigest == k.agentDigest
    ensures j.helperDigest == k.helperDigest && (j.recovery.Some? <==> k.recovery.Some?)
  {
  }

  lemma Onward(a: Disk, b: Disk, c: Disk, acknowledged: set<nat>)
    requires Progress(a, b, acknowledged) && Progress(b, c, acknowledged)
    ensures Progress(a, c, acknowledged)
  {
    ProgressTransitive(a, b, c, acknowledged);
    hide Resumable;
  }

  lemma StillGoing(a: Disk, b: Disk, acknowledged: set<nat>)
    requires Progress(a, b, acknowledged)
    ensures b.journal.Some? && JournalReady(b, b.journal.value, acknowledged)
    ensures a.journal.Some? && Plan(a.journal.value) == Plan(b.journal.value) && Goal(a) == Goal(b)
    ensures a.journal.value.phase.Cleanup? ==> b.journal.value.phase.Cleanup?
    ensures a.fence.Ours? ==> b.fence.Ours?
    ensures Finished(a) <= Finished(b)
  {
    hide JournalReady, Goal, Plan, Finished;
  }

  /// A marked deletion that stopped anywhere.
  lemma PartlyErased(d: Disk, place: Place, gone: set<Path>, acknowledged: set<nat>)
    requires d.journal.Some? && JournalReady(d, d.journal.value, acknowledged) && d.journal.value.phase.Cleanup?
    requires place in d.trees && !place.State? && MayErase(d.journal.value, place, [])
    ensures Progress(d, Without(d, place, gone), acknowledged)
    ensures Progress(d, d.(trees := d.trees - {place}), acknowledged)
    ensures Without(d, place, gone).trees - {place} == d.trees - {place}
    ensures Without(d, place, gone) == d.(trees := Without(d, place, gone).trees)
    ensures (d.trees - {place}) - {place} == d.trees - {place}
  {
    if gone == {} {
      WithoutNothing(d, place);
      AtRest(d, acknowledged);
    } else {
      ErasableAtAll(d.journal.value, place, gone);
      EraseFromPayload(d, d.journal.value, place, gone, acknowledged);
    }
    WithoutKeepsOthers(d, place, gone);
    DropTree(d, d.journal.value, place, acknowledged);
    hide Progress, JournalReady, MayErase, Without;
  }

  lemma ErasableAtAll(j: Journal, place: Place, gone: set<Path>)
    requires !place.State? && MayErase(j, place, [])
    ensures forall p <- gone :: MayErase(j, place, p)
  {
  }

  lemma FilesThenDirectories(t: Tree, files: seq<Path>, dirs: seq<Path>)
    requires forall p <- files :: p in t ==> !t[p].Directory?
    requires DeepestFirst(dirs) && Distinct(dirs)
    requires forall d <- dirs, p <- t :: Child(d, p) ==> p in files || p in dirs
    ensures Removable(t, files + dirs)
  {
    var list := files + dirs;
    forall k, p <- t | 0 <= k < |list| && list[k] in t && t[list[k]].Directory? && Child(list[k], p)
      ensures p in list[..k]
    {
      assert k >= |files| && list[k] == dirs[k - |files|];
      if p in files {
        assert p in list[..|files|];
      } else {
        var i :| 0 <= i < |dirs| && dirs[i] == p;
        assert i < k - |files|;
        assert list[|files| + i] == p;
      }
    }
  }

  /// The listed paths among the first `n` entries that are present, files or directories.
  ghost predicate Sorted(t: Tree, entries: seq<Entry>, n: nat, files: seq<Path>, dirs: seq<Path>)
    requires n <= |entries|
  {
    && Distinct(files) && Distinct(dirs)
    && (forall p <- files :: p in Paths(entries[..n]) && p in t && !t[p].Directory?)
    && (forall p <- dirs :: p in Paths(entries[..n]) && p in t && t[p].Directory?)
    && (forall p <- t :: p in Paths(entries[..n]) ==> p in files || p in dirs)
  }

  lemma SortedNext(t: Tree, entries: seq<Entry>, n: nat, files: seq<Path>, dirs: seq<Path>)
    requires n < |entries| && Sorted(t, entries, n, files, dirs) && DistinctEntries(entries[..n + 1])
    ensures Paths(entries[..n + 1]) == Paths(entries[..n]) + {entries[n].path}
    ensures entries[n].path !in Paths(entries[..n])
    ensures entries[n].path !in t ==> Sorted(t, entries, n + 1, files, dirs)
    ensures entries[n].path in t && !t[entries[n].path].Directory? ==>
      Sorted(t, entries, n + 1, files + [entries[n].path], dirs)
    ensures entries[n].path in t && t[entries[n].path].Directory? ==>
      Sorted(t, entries, n + 1, files, dirs + [entries[n].path])
  {
    assert entries[..n + 1] == entries[..n] + [entries[n]];
    forall e <- entries[..n] ensures e.path != entries[n].path {
      var k :| 0 <= k < n && entries[..n + 1][k] == e;
      assert entries[..n + 1][n] == entries[n];
    }
  }

  /// The part of the state check that has been made for the first `n` entries.
  predicate EntriesChecked(t: Tree, j: Journal, n: nat)
    requires n <= |j.entries|
  {
    && DistinctEntries(j.entries[..n]) && (forall e <- j.entries[..n] :: OwnedNamespace(e.path))
    && (forall e <- j.entries[..n] :: if e.path in t then e.Describes(t[e.path]) else j.stateDeletingStarted)
  }

  predicate EntryPasses(t: Tree, j: Journal, n: nat)
    requires n < |j.entries|
  {
    var e := j.entries[n];
    && (forall k :: 0 <= k < n ==> j.entries[k].path != e.path) && OwnedNamespace(e.path)
    && (if e.path in t then e.Describes(t[e.path]) else j.stateDeletingStarted)
  }

  lemma EntryChecked(t: Tree, j: Journal, n: nat)
    requires n < |j.entries| && EntriesChecked(t, j, n)
    ensures EntryPasses(t, j, n) <==> EntriesChecked(t, j, n + 1)
    ensures !EntryPasses(t, j, n) ==> !EntriesReady(t, j)
  {
    var a, b := j.entries[..n], j.entries[..n + 1];
    assert b == a + [j.entries[n]];
    assert b[n] == j.entries[n] && forall k :: 0 <= k < n ==> b[k] == a[k] == j.entries[k];
    hide OwnedNamespace, Listed;
  }

  /// No listed directory holds anything that is not listed.
  predicate ChildrenListed(t: Tree, dirs: seq<Path>, listed: set<Path>) {
    forall d <- dirs, p <- t :: Child(d, p) ==> p in listed
  }

  lemma CheckedIsReady(t: Tree, j: Journal, files: seq<Path>, dirs: seq<Path>)
    requires EntriesChecked(t, j, |j.entries|) && Sorted(t, j.entries, |j.entries|, files, dirs)
    ensures EntriesReady(t, j) <==> ChildrenListed(t, dirs, Paths(j.entries))
  {
    assert j.entries[..|j.entries|] == j.entries;
    hide OwnedNamespace, Listed;
  }

  function StateMarked(d: Disk): Disk
    requires d.journal.Some?
  {
    d.(journal := Some(d.journal.value.(stateDeletingStarted := true)))
  }

  function PresentEntries(d: Disk): set<Path>
    requires d.journal.Some? && State in d.trees
  {
    set p | p in d.trees[State] && p in Paths(d.journal.value.entries)
  }

  lemma ListedIsRemovable(t: Tree, j: Journal, files: seq<Path>, unsorted: seq<Path>, dirs: seq<Path>)
    requires EntriesReady(t, j) && Sorted(t, j.entries, |j.entries|, files, unsorted)
    requires DeepestFirst(dirs) && Distinct(dirs) && forall p :: p in dirs <==> p in unsorted
    ensures Removable(t, files + dirs)
    ensures Elements(files + dirs) == set p | p in t && p in Paths(j.entries)
  {
    assert j.entries[..|j.entries|] == j.entries;
    forall d <- dirs, p <- t | Child(d, p) ensures p in files || p in dirs {
      var e :| e in j.entries && e.path == d;
      assert p in Paths(j.entries);
    }
    FilesThenDirectories(t, files, dirs);
    hide OwnedNamespace, Listed;
  }

  lemma StateFacts(d: Disk, acknowledged: set<nat>)
    requires d.journal.Some? && JournalReady(d, d.journal.value, acknowledged)
    ensures State in d.trees && EntriesReady(d.trees[State], d.journal.value) && StageReady(d.trees, d.journal.value)
    ensures NamedReady(d.trees[State], d.journal.value)
    ensures d.agent.Some? ==> d.agent.value == d.journal.value.agentDigest
    ensures d.current.NoCurrent? || d.current == Link(d.journal.value.target)
    ensures d.journal.value.Admitted() && (d.journal.value.phase.Revoked? || d.journal.value.phase.Cleanup?)
    ensures !d.journal.value.stateDeletingStarted ==> WorkResolved(d.trees[State], acknowledged)
  {
    hide PayloadReady, StageReady, EntriesReady, NamedReady, WorkResolved;
  }

  lemma HelperIsNotListed(t: Tree, j: Journal)
    requires EntriesReady(t, j)
    ensures {HELPER, RECEIPT, OWNED, SOCKET, LOCK} !! Paths(j.entries)
  {
    NamedFilesAreNotOwned();
    forall e <- j.entries ensures e.path !in {HELPER, RECEIPT, OWNED, SOCKET, LOCK} {
    }
    hide OwnedNamespace, Listed;
  }

  /// Whatever part of the listed entries is gone, the cleanup can go on.
  lemma EntriesProgress(d: Disk, gone: set<Path>, acknowledged: set<nat>)
    requires d.journal.Some? && JournalReady(d, d.journal.value, acknowledged)
    requires gone <= Paths(d.journal.value.entries)
    ensures State in d.trees && Progress(d, Without(StateMarked(d), State, gone), acknowledged)
  {
    var j := d.journal.value;
    var marked := StateMarked(d);
    StateFacts(d, acknowledged);
    MarkedState(d.trees, j);
    MakeMark(d, j, marked.journal.value, acknowledged);
    StillGoing(d, marked, acknowledged);
    HelperIsNotListed(d.trees[State], j);
    EraseFromState(marked, marked.journal.value, gone, acknowledged);
    Onward(d, marked, Without(marked, State, gone), acknowledged);
    hide JournalReady, Progress, EntriesReady, StageReady, Plan, Goal, Finished, MoreMarks, NamedReady, WorkResolved;
  }

  lemma MarkedState(trees: map<Place, Tree>, j: Journal)
    ensures MoreMarks(trees, j, j.(stateDeletingStarted := true))
  {
  }

  lemma MarkedStage(trees: map<Place, Tree>, j: Journal)
    requires j.recovery.Some?
    ensures MoreMarks(trees, j, j.(recovery := Some(j.recovery.value.(deletingStarted := true))))
  {
  }

  lemma MarkedCleanup(trees: map<Place, Tree>, j: Journal)
    ensures MoreMarks(trees, j, j.(phase := Cleanup))
  {
  }

  lemma StageGone(d: Disk)
    requires d.journal.Some? && (d.journal.value.recovery.None? || Stage !in d.trees)
    ensures Staged in Finished(d)
  {
  }

  lemma SocketGone(d: Disk)
    requires d.journal.Some? && State in d.trees && SOCKET !in d.trees[State]
    ensures Socketed in Finished(d)
  {
  }

  lemma ReceiptsGone(d: Disk, e: Disk)
    requires d.journal.Some? && State in d.trees && RECEIPT !in d.trees[State]
    requires e.journal.Some? && State in e.trees
    requires OWNED !in e.trees[State] && e.trees[State].Keys <= d.trees[State].Keys
    ensures Receipts in Finished(e)
  {
  }

  lemma NamedFacts(t: Tree, j: Journal)
    requires NamedReady(t, j)
    ensures HELPER in t && t[HELPER].File? && t[HELPER].content == j.helperDigest
  {
  }

  lemma AllTasks(done: set<Task>)
    requires Work in done && Payload in done && Staged in done && Agent in done && Resources in done
    requires Entries in done && Socketed in done && Currently in done && Receipts in done
    ensures forall task: Task :: task in done
  {
    forall task: Task ensures task in done {
      assert task.Work? || task.Payload? || task.Staged? || task.Agent? || task.Resources? || task.Entries?
          || task.Socketed? || task.Currently? || task.Receipts?;
    }
  }

  lemma OpenedKeepsWork(d: Disk)
    requires Work in Finished(d)
    ensures Work in Finished(d.(quarantine := true))
  {
  }

  lemma ResumedGoing(a: Disk, b: Disk, acknowledged: set<nat>)
    requires Resumable(a, b, acknowledged)
    ensures b.journal.Some? && JournalReady(b, b.journal.value, acknowledged)
    ensures a.journal.Some? && (a.journal.value.phase.Cleanup? ==> b.journal.value.phase.Cleanup?)
    ensures (a.fence.Ours? ==> b.fence.Ours?) && Goal(a) == Goal(b)
  {
    hide JournalReady, Goal, Plan;
  }

  lemma ResumedWeak(a: Disk, b: Disk, acknowledged: set<nat>)
    requires Progress(a, b, acknowledged)
    ensures Resumable(a, b, acknowledged)
  {
    hide Resumable;
  }

  lemma Further(a: Disk, b: Disk, c: Disk, acknowledged: set<nat>)
    requires Resumable(a, b, acknowledged) && Progress(b, c, acknowledged)
    ensures Resumable(a, c, acknowledged)
  {
    ProgressTransitive(a, b, c, acknowledged);
    hide Resumable;
  }

  lemma EntriesGone(d: Disk, acknowledged: set<nat>)
    requires d.journal.Some? && State in d.trees
    requires Progress(d, Without(StateMarked(d), State, PresentEntries(d)), acknowledged)
    ensures Entries in Finished(Without(StateMarked(d), State, PresentEntries(d)))
  {
    hide Progress;
  }

  // ---- The terminal handover -----------------------------------------------

  predicate AtMarker(d: Disk, m: Journal, acknowledged: set<nat>) {
    d.journal.None? && d.marker == Some(m) && MarkerReady(d, m, acknowledged)
  }

  lemma MarkerNotRefused(d: Disk, m: Journal, acknowledged: set<nat>)
    requires AtMarker(d, m, acknowledged)
    ensures !MarkerRefused(d, m, acknowledged)
  {
    MarkerFacts(d, m, acknowledged);
    ResolvedExactly(d.trees[State], acknowledged);
    hide AtMarker, WorkResolved, Unresolved;
  }

  lemma MarkerFacts(d: Disk, m: Journal, acknowledged: set<nat>)
    requires AtMarker(d, m, acknowledged)
    ensures State in d.trees && RECEIPT !in d.trees[State] && OWNED !in d.trees[State] && d.current.NoCurrent?
    ensures m.phase.Terminal? && m.Admitted()
    ensures !m.stateDeletingStarted ==> WorkResolved(d.trees[State], acknowledged)
    ensures HELPER in d.trees[State] ==>
      d.trees[State][HELPER].File? && d.trees[State][HELPER].content == m.helperDigest
  {
    assert Goal(d).trees[State] == d.trees[State] - Doomed(m);
    assert Handed(d).trees[State] == d.trees[State] - {HELPER};
    assert RECEIPT != HELPER && OWNED != HELPER by {
      assert |RECEIPT[0]| == 20 && |OWNED[0]| == 19 && |HELPER[0]| == 26;
    }
    assert forall p <- d.trees[State] :: p !in d.trees[State] - Doomed(m) ==> p == HELPER by {
      assert d.trees[State] - Doomed(m) == d.trees[State] - {HELPER};
    }
    hide WorkResolved, Remaining;
  }

  lemma HelperGone(d: Disk, m: Journal, acknowledged: set<nat>)
    requires AtMarker(d, m, acknowledged)
    ensures State in d.trees
    ensures AtMarker(Without(d, State, {HELPER}), m, acknowledged) && Goal(Without(d, State, {HELPER})) == Goal(d)
  {
    var e := Without(d, State, {HELPER});
    HelperStaysGone(d.trees[State], m);
    SameRemains(d.trees, e.trees, m);
    SameHanded(d, e);
    HelperIsNotWork(d.trees[State], acknowledged);
    hide WorkResolved, Remaining, Doomed, Kept, Handed;
  }

  lemma HelperStaysGone(t: Tree, m: Journal)
    ensures (t - {HELPER}) - {HELPER} == t - {HELPER} && (t - {HELPER}) - Doomed(m) == t - Doomed(m)
  {
  }

  lemma SameHanded(d: Disk, e: Disk)
    requires State in d.trees && e == Without(d, State, {HELPER})
    ensures Handed(e) == Handed(d)
  {
    var t := d.trees[State];
    assert (t - {HELPER}) - {HELPER} == t - {HELPER};
    assert e.trees[State := t - {HELPER}] == d.trees[State := t - {HELPER}];
  }

  lemma HelperIsNotWork(t: Tree, acknowledged: set<nat>)
    ensures WorkResolved(t, acknowledged) ==> WorkResolved(t - {HELPER}, acknowledged)
  {
    hide IsUuid;
  }

  lemma FenceGone(d: Disk, m: Journal, acknowledged: set<nat>)
    requires AtMarker(d, m, acknowledged)
    ensures var e := d.(fence := FinalFence(d.evidence)); AtMarker(e, m, acknowledged) && Goal(e) == Goal(d)
  {
    hide WorkResolved, Remaining;
  }

  lemma NothingToHand(d: Disk)
    requires State in d.trees && HELPER !in d.trees[State] && d.fence == FinalFence(d.evidence)
    ensures Handed(d) == d.(marker := None)
  {
    assert d.trees[State] - {HELPER} == d.trees[State];
    assert d.trees[State := d.trees[State]] == d.trees;
  }

  lemma MarkerGone(d: Disk, m: Journal, acknowledged: set<nat>)
    requires AtMarker(d, m, acknowledged) && d.fence == FinalFence(d.evidence) && HELPER !in d.trees[State]
    ensures d.(marker := None) == Goal(d)
  {
    NothingToHand(d);
    hide WorkResolved, Remaining, Goal, Handed;
  }

  /// A run that is cut short anywhere leaves a state from which another can go
  /// on to the same end.
  predicate Continues(d: Disk, e: Disk, acknowledged: set<nat>) {
    Ready(e, acknowledged) && Goal(e) == Goal(d)
  }

  lemma ProgressContinues(d: Disk, e: Disk, acknowledged: set<nat>)
    requires Resumable(d, e, acknowledged)
    ensures Continues(d, e, acknowledged)
  {
    hide JournalReady, Goal, Plan;
  }

  lemma MarkerContinues(d: Disk, e: Disk, m: Journal, acknowledged: set<nat>)
    requires AtMarker(e, m, acknowledged) && Goal(e) == Goal(d)
    ensures Continues(d, e, acknowledged)
  {
    hide MarkerReady, Goal;
  }

  lemma ContinuesTwice(a: Disk, b: Disk, c: Disk, acknowledged: set<nat>)
    requires Goal(a) == Goal(b) && Continues(b, c, acknowledged)
    ensures Continues(a, c, acknowledged)
  {
    hide Ready, Goal;
  }

  lemma AtTheEnd(d: Disk)
    requires d.journal.None? && d.(marker := None) == Goal(d)
    ensures Goal(d.(marker := None)) == Goal(d)
  {
    hide Remaining;
  }

  lemma RestContinues(d: Disk, acknowledged: set<nat>)
    requires Ready(d, acknowledged)
    ensures Continues(d, d, acknowledged)
  {
    hide Ready, Goal;
  }

  lemma NothingLeft(d: Disk)
    ensures d.journal.None? && d.marker.None? ==> d == Goal(d)
  {
    hide Remaining;
  }

  lemma HandOverReady(d: Disk, j: Journal, acknowledged: set<nat>)
    requires d.journal == Some(j) && JournalReady(d, j, acknowledged) && d.fence.Ours?
    requires d.marker == Some(j.(phase := Terminal)) && forall task: Task :: task in Finished(d)
    ensures AtMarker(d.(journal := None), j.(phase := Terminal), acknowledged) && Goal(d.(journal := None)) == Goal(d)
  {
    AllDone(d, j, acknowledged);
    assert HandedOver(d, j) == d.(journal := None);
    hide MarkerReady, Goal, JournalReady, Finished;
  }
}
