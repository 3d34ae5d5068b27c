// The durable effects of the uninstall cleanup, one at a time: each keeps the
// state resumable and its goal fixed.

module UninstallEffects {
  import opened Basics
  import opened FileTrees
  import opened UninstallState

  // ---- One effect at a time ------------------------------------------------

  /// What may be erased, entry by entry, once its deletion is marked as started.
  predicate MayErase(j: Journal, place: Place, p: Path) {
    match place
    case Source(_) => false
    case Quarantine(v) => v in j.paths && v in j.deletingStarted && v in j.moved
    case Stage => j.recovery.Some? && j.recovery.value.deletingStarted
    case State => j.stateDeletingStarted && p in Paths(j.entries)
  }

  function Without(d: Disk, place: Place, gone: set<Path>): Disk
    requires place in d.trees
  {
    d.(trees := d.trees[place := d.trees[place] - gone])
  }

  lemma SameRemains(a: map<Place, Tree>, b: map<Place, Tree>, j: Journal)
    requires forall place :: Kept(place, j) ==> (place in a <==> place in b)
    requires forall place :: Kept(place, j) && place in a && !place.State? ==> a[place] == b[place]
    requires State in a && State in b ==> a[State] - Doomed(j) == b[State] - Doomed(j)
    ensures Remaining(a, j) == Remaining(b, j)
  {
    hide Kept, Doomed;
  }

  lemma ChangeDoomedTree(trees: map<Place, Tree>, place: Place, t: Tree, j: Journal, gone: set<Path>)
    requires place in trees && !place.State? && gone != {} && forall p <- gone :: MayErase(j, place, p)
    ensures Remaining(trees[place := t], j) == Remaining(trees, j)
  {
    var p :| p in gone;
    SameRemains(trees, trees[place := t], j);
    hide Doomed, Remaining;
  }

  /// `e` holds no more than `d` of anything that the uninstall removes.
  predicate Shrinks(d: Disk, e: Disk) {
    && d.journal.Some? && e.journal.Some? && Plan(d.journal.value) == Plan(e.journal.value)
    && e.trees.Keys <= d.trees.Keys
    && (State in d.trees ==> State in e.trees && e.trees[State].Keys <= d.trees[State].Keys)
    && (d.agent.None? ==> e.agent.None?) && (d.current.NoCurrent? ==> e.current.NoCurrent?)
    && (e.resources ==> d.resources) && (e.work ==> d.work) && (e.quarantine ==> d.quarantine)
  }

  lemma DoneGrows(d: Disk, e: Disk)
    requires Shrinks(d, e)
    ensures Finished(d) <= Finished(e)
  {
    var j, k := d.journal.value, e.journal.value;
    assert j.paths == k.paths && j.entries == k.entries && (j.recovery.None? <==> k.recovery.None?);
    forall task | task in Finished(d) ensures task in Finished(e) {
    }
    hide Plan;
  }

  /// A change of the trees alone.
  lemma ChangeTrees(d: Disk, j: Journal, trees: map<Place, Tree>, acknowledged: set<nat>)
    requires d.journal == Some(j) && JournalReady(d, j, acknowledged)
    requires TreesReady(trees, d.quarantine, j, acknowledged)
    requires Remaining(trees, j) == Remaining(d.trees, j) && Finished(d) <= Finished(d.(trees := trees))
    ensures Progress(d, d.(trees := trees), acknowledged)
  {
    hide Remaining, TreesReady, Finished;
  }

  lemma EraseKeepsPayload(trees: map<Place, Tree>, quarantine: bool, j: Journal, place: Place, gone: set<Path>,
                          acknowledged: set<nat>)
    requires TreesReady(trees, quarantine, j, acknowledged) && place in trees
    requires !place.State? && gone != {} && forall p <- gone :: MayErase(j, place, p)
    ensures TreesReady(trees[place := trees[place] - gone], quarantine, j, acknowledged)
  {
    var p :| p in gone;
    if place.Quarantine? {
      FewerAreInventoried(trees[place], j.inventories[place.v], true, gone);
    } else {
      FewerAreInventoried(trees[place], j.recovery.value.files, true, gone);
    }
    hide Inventoried, EntriesReady, NamedReady, WorkResolved;
  }

  lemma ReadyTrees(d: Disk, j: Journal, acknowledged: set<nat>)
    requires JournalReady(d, j, acknowledged)
    ensures TreesReady(d.trees, d.quarantine, j, acknowledged)
  {
    hide TreesReady;
  }

  lemma ErasedFinished(d: Disk, place: Place, gone: set<Path>)
    requires d.journal.Some? && place in d.trees
    ensures Finished(d) <= Finished(Without(d, place, gone))
  {
    DoneGrows(d, Without(d, place, gone));
    hide Finished, Plan;
  }

  lemma EraseFromPayload(d: Disk, j: Journal, place: Place, gone: set<Path>, acknowledged: set<nat>)
    requires d.journal == Some(j) && JournalReady(d, j, acknowledged) && place in d.trees
    requires !place.State? && gone != {} && forall p <- gone :: MayErase(j, place, p)
    ensures Progress(d, Without(d, place, gone), acknowledged)
  {
    ChangeDoomedTree(d.trees, place, d.trees[place] - gone, j, gone);
    ReadyTrees(d, j, acknowledged);
    EraseKeepsPayload(d.trees, d.quarantine, j, place, gone, acknowledged);
    ErasedFinished(d, place, gone);
    ChangeTrees(d, j, d.trees[place := d.trees[place] - gone], acknowledged);
    hide MayErase, Remaining, JournalReady, TreesReady, Finished, Plan, Doomed, Goal, Progress;
  }

  lemma EraseKeepsState(t: Tree, j: Journal, gone: set<Path>)
    requires EntriesReady(t, j) && NamedReady(t, j) && gone <= Doomed(j) - {HELPER}
    requires gone !! Paths(j.entries) || j.stateDeletingStarted
    requires RECEIPT in gone ==> j.phase.Cleanup?
    ensures EntriesReady(t - gone, j) && NamedReady(t - gone, j) && (t - gone) - Doomed(j) == t - Doomed(j)
  {
    forall e <- j.entries ensures e.path in Paths(j.entries) {
    }
    hide OwnedNamespace;
  }

  lemma EraseFromState(d: Disk, j: Journal, gone: set<Path>, acknowledged: set<nat>)
    requires d.journal == Some(j) && JournalReady(d, j, acknowledged) && gone <= Doomed(j) - {HELPER}
    requires j.stateDeletingStarted || gone <= {RECEIPT, OWNED, SOCKET} - Paths(j.entries)
    requires RECEIPT in gone ==> j.phase.Cleanup?
    ensures Progress(d, Without(d, State, gone), acknowledged)
  {
    var trees := d.trees[State := d.trees[State] - gone];
    StateKeepsReady(d.trees, d.quarantine, j, gone, acknowledged);
    SameRemains(d.trees, trees, j);
    DoneGrows(d, d.(trees := trees));
    ChangeTrees(d, j, trees, acknowledged);
    hide Remaining, TreesReady, Finished, Plan, Doomed, Goal, Progress, Paths;
  }

  lemma StateKeepsReady(trees: map<Place, Tree>, quarantine: bool, j: Journal, gone: set<Path>, acknowledged: set<nat>)
    requires TreesReady(trees, quarantine, j, acknowledged) && gone <= Doomed(j) - {HELPER}
    requires j.stateDeletingStarted || gone <= {RECEIPT, OWNED, SOCKET} - Paths(j.entries)
    requires RECEIPT in gone ==> j.phase.Cleanup?
    ensures TreesReady(trees[State := trees[State] - gone], quarantine, j, acknowledged)
    ensures (trees[State] - gone) - Doomed(j) == trees[State] - Doomed(j)
  {
    EraseKeepsState(trees[State], j, gone);
    if !j.stateDeletingStarted {
      NamedFilesAreNotWork(trees[State], gone, acknowledged);
    }
    StateFrame(trees, trees[State] - gone, quarantine, j);
    hide PayloadReady, StageReady, EntriesReady, NamedReady, WorkResolved, Doomed, Paths;
  }

  lemma StateFrame(trees: map<Place, Tree>, t: Tree, quarantine: bool, j: Journal)
    requires State in trees
    ensures PayloadReady(trees, quarantine, j) ==> PayloadReady(trees[State := t], quarantine, j)
    ensures StageReady(trees, j) ==> StageReady(trees[State := t], j)
  {
    hide Inventoried;
  }

  lemma NamedFilesAreNotWork(t: Tree, gone: set<Path>, acknowledged: set<nat>)
    requires WorkResolved(t, acknowledged) && gone <= {RECEIPT, OWNED, SOCKET}
    ensures WorkResolved(t - gone, acknowledged)
  {
    hide IsUuid;
  }

  /// A change of the progress marks alone.
  lemma ChangeJournal(d: Disk, j: Journal, k: Journal, acknowledged: set<nat>)
    requires d.journal == Some(j) && JournalReady(d, j, acknowledged)
    requires Plan(j) == Plan(k) && (k.phase == j.phase || k.phase.Cleanup?)
    requires TreesReady(d.trees, d.quarantine, k, acknowledged)
    ensures Progress(d, d.(journal := Some(k)), acknowledged)
  {
    SamePlanSameRemains(d.trees, j, k);
    DoneGrows(d, d.(journal := Some(k)));
    assert j.run == k.run && j.target == k.target && j.paths == k.paths && j.agentDigest == k.agentDigest;
    hide Remaining, TreesReady, Finished, Doomed;
  }

  /// `k` has the marks of `j` and perhaps more, each of them made in its place.
  predicate MoreMarks(trees: map<Place, Tree>, j: Journal, k: Journal) {
    && Plan(j) == Plan(k) && (k.phase == j.phase || k.phase.Cleanup?)
    && j.moved <= k.moved && (forall v <- k.moved :: v in j.moved || (Source(v) !in trees && Quarantine(v) in trees))
    && j.deletingStarted <= k.deletingStarted
    && (forall v <- k.deletingStarted :: v in j.deletingStarted || (Quarantine(v) in trees && v in k.moved))
    && (j.recovery.Some? && j.recovery.value.deletingStarted ==> k.recovery.value.deletingStarted)
    && (j.stateDeletingStarted ==> k.stateDeletingStarted)
  }

  lemma MarksKeepPayload(trees: map<Place, Tree>, quarantine: bool, j: Journal, k: Journal)
    requires PayloadReady(trees, quarantine, j) && StageReady(trees, j) && MoreMarks(trees, j, k)
    ensures PayloadReady(trees, quarantine, k) && StageReady(trees, k)
  {
    assert j.paths == k.paths && j.inventories == k.inventories;
    assert j.recovery.Some? <==> k.recovery.Some?;
    assert j.recovery.Some? ==> j.recovery.value.files == k.recovery.value.files;
    forall v <- k.paths ensures VersionReady(trees, k, v) {
      assert VersionReady(trees, j, v);
    }
    hide Listed, ImpliedDirectories;
  }

  lemma MarksKeepState(t: Tree, trees: map<Place, Tree>, j: Journal, k: Journal)
    requires EntriesReady(t, j) && NamedReady(t, j) && MoreMarks(trees, j, k)
    ensures EntriesReady(t, k) && NamedReady(t, k)
  {
    assert j.entries == k.entries && j.helperDigest == k.helperDigest && j.receiptDigest == k.receiptDigest;
    hide OwnedNamespace, Plan;
  }

  /// Making a mark in its place changes nothing else.
  lemma MakeMark(d: Disk, j: Journal, k: Journal, acknowledged: set<nat>)
    requires d.journal == Some(j) && JournalReady(d, j, acknowledged) && MoreMarks(d.trees, j, k)
    ensures Progress(d, d.(journal := Some(k)), acknowledged)
  {
    MarksKeepPayload(d.trees, d.quarantine, j, k);
    MarksKeepState(d.trees[State], d.trees, j, k);
    ChangeJournal(d, j, k, acknowledged);
    hide Progress, WorkResolved, PayloadReady, StageReady, EntriesReady, NamedReady, Plan;
  }

  /// The source of a version becomes its quarantined copy in one rename.
  lemma Rename(d: Disk, j: Journal, v: Version, acknowledged: set<nat>)
    requires d.journal == Some(j) && JournalReady(d, j, acknowledged)
    requires v in j.paths && Source(v) in d.trees && j.phase.Cleanup? && d.quarantine
    ensures Progress(d, d.(trees := Renamed(d.trees, v)), acknowledged)
  {
    ReadyTrees(d, j, acknowledged);
    RenamedReady(d.trees, j, v, acknowledged);
    RenamedRemains(d.trees, j, v);
    RenamedFinished(d, v);
    ChangeTrees(d, j, Renamed(d.trees, v), acknowledged);
    hide Remaining, JournalReady, TreesReady, Finished, Plan, Doomed, Goal, Progress, Renamed;
  }

  lemma RenamedRemains(trees: map<Place, Tree>, j: Journal, v: Version)
    requires v in j.paths && Source(v) in trees
    ensures Remaining(Renamed(trees, v), j) == Remaining(trees, j)
  {
    SameRemains(trees, Renamed(trees, v), j);
    hide Remaining, Doomed;
  }

  function Renamed(trees: map<Place, Tree>, v: Version): map<Place, Tree>
    requires Source(v) in trees
  {
    (trees - {Source(v)})[Quarantine(v) := trees[Source(v)]]
  }

  lemma RenamedFinished(d: Disk, v: Version)
    requires d.journal.Some? && v in d.journal.value.paths && Source(v) in d.trees
    ensures Finished(d) <= Finished(d.(trees := Renamed(d.trees, v)))
  {
    forall task | task in Finished(d) ensures task in Finished(d.(trees := Renamed(d.trees, v))) {
    }
  }

  lemma RenamedReady(trees: map<Place, Tree>, j: Journal, v: Version, acknowledged: set<nat>)
    requires TreesReady(trees, true, j, acknowledged) && v in j.paths && Source(v) in trees && j.phase.Cleanup?
    ensures TreesReady(Renamed(trees, v), true, j, acknowledged)
  {
    forall w <- j.paths ensures VersionReady(Renamed(trees, v), j, w) {
      assert VersionReady(trees, j, w);
    }
    hide Inventoried, EntriesReady, NamedReady, WorkResolved;
  }

  /// The emptied root of a tree goes last.
  lemma DropTree(d: Disk, j: Journal, place: Place, acknowledged: set<nat>)
    requires d.journal == Some(j) && JournalReady(d, j, acknowledged) && place in d.trees && j.phase.Cleanup?
    requires !place.State? && MayErase(j, place, [])
    ensures Progress(d, d.(trees := d.trees - {place}), acknowledged)
  {
    ReadyTrees(d, j, acknowledged);
    DroppedReady(d.trees, d.quarantine, j, place, acknowledged);
    DroppedRemains(d.trees, place, j);
    DroppedFinished(d, place);
    ChangeTrees(d, j, d.trees - {place}, acknowledged);
    hide Remaining, JournalReady, MayErase, TreesReady, Finished, Plan, Doomed, Goal, Progress;
  }

  lemma DroppedFinished(d: Disk, place: Place)
    requires d.journal.Some? && place in d.trees && !place.State?
    ensures Finished(d) <= Finished(d.(trees := d.trees - {place}))
  {
    DoneGrows(d, d.(trees := d.trees - {place}));
    hide Finished, Plan;
  }

  lemma DroppedRemains(trees: map<Place, Tree>, place: Place, j: Journal)
    requires place in trees && !place.State? && MayErase(j, place, [])
    ensures Remaining(trees - {place}, j) == Remaining(trees, j)
  {
    SameRemains(trees, trees - {place}, j);
    hide Remaining, Doomed;
  }

  lemma DroppedReady(trees: map<Place, Tree>, quarantine: bool, j: Journal, place: Place, acknowledged: set<nat>)
    requires TreesReady(trees, quarantine, j, acknowledged) && place in trees && j.phase.Cleanup?
    requires !place.State? && MayErase(j, place, [])
    ensures TreesReady(trees - {place}, quarantine, j, acknowledged)
  {
    forall w <- j.paths ensures VersionReady(trees - {place}, j, w) {
      assert VersionReady(trees, j, w);
    }
    hide Inventoried, EntriesReady, NamedReady, WorkResolved;
  }

  /// The files outside the trees, and the directory of the quarantine.
  lemma ChangeFlags(d: Disk, j: Journal, e: Disk, acknowledged: set<nat>)
    requires d.journal == Some(j) && JournalReady(d, j, acknowledged)
    requires e == d.(agent := e.agent, current := e.current, resources := e.resources, work := e.work, fence := e.fence,
                     marker := e.marker, quarantine := e.quarantine)
    requires (e.agent == d.agent || e.agent.None?) && (e.current == d.current || e.current.NoCurrent?)
    requires (e.resources ==> d.resources) && (e.work ==> d.work) && (d.fence.Ours? ==> e.fence.Ours?)
    requires e.quarantine == d.quarantine || (!e.quarantine && forall place <- d.trees :: !place.Quarantine?)
    ensures Progress(d, e, acknowledged)
  {
    DoneGrows(d, e);
    hide Remaining, Finished, VersionReady, StageReady, EntriesReady, NamedReady, WorkResolved, Plan;
  }

  lemma OpenQuarantine(d: Disk, j: Journal, acknowledged: set<nat>)
    requires d.journal == Some(j) && JournalReady(d, j, acknowledged)
    ensures Resumable(d, d.(quarantine := true), acknowledged)
  {
    hide Remaining, VersionReady, StageReady, EntriesReady, NamedReady, WorkResolved, Plan;
  }

  lemma ProgressTransitive(a: Disk, b: Disk, c: Disk, acknowledged: set<nat>)
    requires Resumable(a, b, acknowledged) && Resumable(b, c, acknowledged)
    ensures Resumable(a, c, acknowledged)
    ensures Progress(a, b, acknowledged) && Progress(b, c, acknowledged) ==> Progress(a, c, acknowledged)
  {
    hide JournalReady, Goal, Plan, Finished;
  }

  lemma AtRest(d: Disk, acknowledged: set<nat>)
    requires d.journal.Some? && JournalReady(d, d.journal.value, acknowledged)
    ensures Progress(d, d, acknowledged)
  {
    hide JournalReady, Goal, Plan, Finished;
  }
}
