// The durable state of an uninstall that has passed its revocation: the journal,
// the terminal marker, and every tree and file that it removes. `Ready` says
// that a fresh run can go on from here; `Goal` is the state it will leave.

module UninstallState {
  import opened Basics
  import opened FileTrees
  import Phases = UninstallPhases

  type Version = string

  datatype Phase = Revoked | Cleanup | Terminal

  /// One inventoried path of the state directory.
  datatype Entry = Entry(path: Path, file: Option<FileEntry>) {
    predicate Describes(node: Node) {
      if file.Some? then Listed(file.value, node) && node.links == 1 else node.Directory?
    }
  }

  datatype Recovery = Recovery(files: Inventory, deletingStarted: bool)

  datatype Journal = Journal(
    phase: Phase,
    paths: seq<Version>,
    inventories: map<Version, Inventory>,
    target: Version,
    moved: set<Version>,
    deletingStarted: set<Version>,
    entries: seq<Entry>,
    stateDeletingStarted: bool,
    recovery: Option<Recovery>,
    run: Phases.Journal,  // what the runs before the cleanup have recorded
    agentDigest: nat,
    helperDigest: nat,
    receiptDigest: nat,
    ownedDigest: nat)
  {
    /// The guard of the cleanup: the revocation is satisfied and the protected store removed.
    predicate Admitted() {
      Phases.Satisfied(run) && run.storeRemoved
    }
  }

  datatype Place = Source(v: Version) | Quarantine(v: Version) | Stage | State

  datatype Current = NoCurrent | Link(v: Version) | NotALink

  /// The lifecycle operation file.
  datatype Fence = NoOperation | PriorOperation | Ours | Retired

  datatype Disk = Disk(
    journal: Option<Journal>,
    marker: Option<Journal>,
    trees: map<Place, Tree>,
    quarantine: bool,  // the directory that holds the quarantined versions
    agent: Option<nat>,
    current: Current,
    resources: bool,  // temporary files of the prior operation
    work: bool,  // temporary files of the uninstall work owner
    fence: Fence,
    evidence: bool)  // operation retirement evidence, which keeps the fence

  // ---- Names in the state directory ----------------------------------------

  const RECEIPT: Path := ["install-receipt.json"]
  const OWNED: Path := ["owned-versions.json"]
  const HELPER: Path := ["bootstrap-uninstall-helper"]
  const SOCKET: Path := ["control.sock"]
  const JOBS: Path := ["jobs"]
  const LOCK: Path := ["daemon.lock"]

  predicate HexDigest(s: string) {
    |s| == 64 && IsHexText(s)
  }

  /// `name.strip_suffix(suffix)` satisfies `p`.
  predicate Stem(name: string, suffix: string, p: string -> bool) {
    |suffix| <= |name| && name[|name| - |suffix|..] == suffix && p(name[..|name| - |suffix|])
  }

  /// `owned_state_namespace`: the paths that an uninstall may ever delete here.
  predicate OwnedNamespace(path: Path) {
    match |path|
    case 1 =>
      path[0] in {
        "state.json", "drain.json", "pending-update.json", "jobs", "operations", "workflow-patches", "responses",
        "presentation.sqlite3", "presentation.sqlite3-wal", "presentation.sqlite3-shm", "follow.sqlite3",
        "follow.sqlite3-wal", "follow.sqlite3-shm", "recovery.sqlite3", "recovery.sqlite3-wal", "recovery.sqlite3-shm" }
    case 2 =>
      || (path[0] == "jobs" && IsUuid(path[1]))
      || (path[0] == "operations" && Stem(path[1], ".json", key => IsUuid(key) || HexDigest(key)))
      || (path[0] == "workflow-patches" && Stem(path[1], ".json", HexDigest))
      || (path[0] == "responses" && ResponseName(path[1]))
    case 3 =>
      && path[0] == "jobs" && IsUuid(path[1])
      && path[2] in {
        "journal.json", "stdout", "stderr", "target-status.json", "provider-schema.json", "http-response-body" }
    case _ => false
  }

  /// The first suffix that fits decides.
  predicate ResponseName(name: string) {
    if Stem(name, ".meta.json", _ => true) then Stem(name, ".meta.json", IsUuid)
    else if Stem(name, ".sha256", _ => true) then Stem(name, ".sha256", IsUuid)
    else Stem(name, ".json", IsUuid)
  }

  /// Only what lies in the runner's own directories, directly or in a job's own
  /// one, under names that the runner itself makes, is ever owned; and with it
  /// the directory that it lies in.
  lemma OwnedLiesInOwnDirectories(path: Path)
    requires OwnedNamespace(path) && |path| > 1
    ensures |path| <= 3 && path[0] in {"jobs", "operations", "workflow-patches", "responses"}
    ensures OwnedNamespace(path[..|path| - 1])
    ensures path[0] == "jobs" ==> IsUuid(path[1])
    ensures path[0] != "jobs" ==> |path| == 2 && |path[1]| > 32
    ensures path[0] == "workflow-patches" ==>
      |path[1]| == 69 && path[1][64..] == ".json" && forall c <- path[1][..64] :: IsHex(c)
    ensures path[0] == "operations" ==>
      |path[1]| in {37, 41, 69} && path[1][|path[1]| - 5..] == ".json"
  {
  }

  /// Stable lock metadata and the files with an owner of their own are never inventoried.
  lemma NamedFilesAreNotOwned()
    ensures !OwnedNamespace(RECEIPT) && !OwnedNamespace(OWNED) && !OwnedNamespace(HELPER)
    ensures !OwnedNamespace(SOCKET) && !OwnedNamespace(LOCK)
  {
    assert |"install-receipt.json"| == 20 && |"owned-versions.json"| == 19 && |"bootstrap-uninstall-helper"| == 26;
    assert |"control.sock"| == 12 && |"daemon.lock"| == 11;
  }

  // ---- The goal ------------------------------------------------------------

  function Paths(entries: seq<Entry>): set<Path> {
    set e | e in entries :: e.path
  }

  /// Everything that this uninstall removes from the state directory.
  function Doomed(j: Journal): set<Path> {
    Paths(j.entries) + {SOCKET, RECEIPT, OWNED, HELPER}
  }

  /// Whether a whole tree outlives the uninstall.
  predicate Kept(place: Place, j: Journal) {
    match place
    case Source(v) => v !in j.paths
    case Quarantine(v) => v !in j.paths
    case Stage => j.recovery.None?
    case State => true
  }

  function Remaining(trees: map<Place, Tree>, j: Journal): map<Place, Tree> {
    map place | place in trees && Kept(place, j) ::
      if place.State? then trees[place] - Doomed(j) else trees[place]
  }

  function Goal(d: Disk): Disk {
    if d.journal.None? && d.marker.None? then d else
    var j := if d.journal.Some? then d.journal.value else d.marker.value;
    Disk(None, None, Remaining(d.trees, j), false, None, NoCurrent, false, false,
         FinalFence(d.evidence), d.evidence)
  }

  /// A journal without its progress marks.
  function Plan(j: Journal): Journal {
    j.(phase := Cleanup, moved := {}, deletingStarted := {}, stateDeletingStarted := false,
       recovery := if j.recovery.Some? then Some(j.recovery.value.(deletingStarted := false)) else None)
  }

  lemma SamePlanSameRemains(trees: map<Place, Tree>, j: Journal, k: Journal)
    requires Plan(j) == Plan(k)
    ensures Remaining(trees, j) == Remaining(trees, k)
  {
    assert j.paths == k.paths && j.entries == k.entries && (j.recovery.None? <==> k.recovery.None?);
    assert Doomed(j) == Doomed(k);
  }

  // ---- Where a run can go on -----------------------------------------------

  /// A version is where the journal says it is: never in two places, marked as
  /// moved only when its source is gone, and gone only after the deletion was marked.
  predicate VersionReady(trees: map<Place, Tree>, j: Journal, v: Version) {
    v in j.inventories &&
    if Source(v) in trees then
      && v !in j.moved && v !in j.deletingStarted && Quarantine(v) !in trees
      && Inventoried(trees[Source(v)], j.inventories[v], false)
    else if Quarantine(v) in trees then
      && j.phase.Cleanup? && (v in j.deletingStarted ==> v in j.moved)
      && Inventoried(trees[Quarantine(v)], j.inventories[v], v in j.deletingStarted)
    else
      j.phase.Cleanup? && v in j.moved && v in j.deletingStarted
  }

  predicate PayloadReady(trees: map<Place, Tree>, quarantine: bool, j: Journal) {
    && (forall v <- j.paths :: VersionReady(trees, j, v))
    && (forall place <- trees :: place.Quarantine? ==> place.v in j.paths && quarantine)
  }

  predicate StageReady(trees: map<Place, Tree>, j: Journal) {
    j.recovery.Some? && Stage in trees ==>
      Inventoried(trees[Stage], j.recovery.value.files, j.recovery.value.deletingStarted)
  }

  predicate DistinctEntries(entries: seq<Entry>) {
    forall i, k :: 0 <= i < k < |entries| ==> entries[i].path != entries[k].path
  }

  /// Every listed entry is as captured, or gone after the deletion was marked;
  /// and a listed directory holds nothing that is not listed.
  predicate EntriesReady(t: Tree, j: Journal) {
    && DistinctEntries(j.entries)
    && (forall e <- j.entries :: OwnedNamespace(e.path))
    && (forall e <- j.entries :: if e.path in t then e.Describes(t[e.path]) else j.stateDeletingStarted)
    && (forall e <- j.entries, p <- t :: e.path in t && t[e.path].Directory? && Child(e.path, p) ==>
          p in Paths(j.entries))
  }

  /// The entry is not what the inventory recorded: for a file every recorded
  /// attribute counts, and that it has no second link.
  predicate Changed(e: Entry, node: Node) {
    match e.file
    case Some(f) => node != File(f.content, f.mode, 1)
    case None => node != Directory
  }

  /// One listed entry is changed, not to be deleted here, listed twice, or gone
  /// before any deletion; or a listed directory holds something unlisted.
  predicate Tampered(t: Tree, j: Journal) {
    || (exists i, k :: 0 <= i < k < |j.entries| && j.entries[i].path == j.entries[k].path)
    || (exists e <- j.entries :: !OwnedNamespace(e.path))
    || (exists e <- j.entries :: e.path in t && Changed(e, t[e.path]))
    || (!j.stateDeletingStarted && exists e <- j.entries :: e.path !in t)
    || (exists e <- j.entries, p <- t ::
          e.file.None? && e.path in t && |p| == |e.path| + 1 && p[..|e.path|] == e.path
          && forall f <- j.entries :: f.path != p)
  }

  lemma EntriesReadyExactly(t: Tree, j: Journal)
    ensures EntriesReady(t, j) <==> !Tampered(t, j)
  {
    assert forall e <- j.entries :: e.path in t ==> (e.Describes(t[e.path]) <==> !Changed(e, t[e.path]));
    if !Tampered(t, j) {
      forall e <- j.entries, p <- t | e.path in t && t[e.path].Directory? && Child(e.path, p)
        ensures p in Paths(j.entries) {
      }
    }
    if EntriesReady(t, j) {
      forall e <- j.entries, p <- t | e.file.None? && e.path in t && |p| == |e.path| + 1 && p[..|e.path|] == e.path
        ensures exists f <- j.entries :: f.path == p {
        assert Child(e.path, p) && p in Paths(j.entries);
      }
    }
    hide OwnedNamespace;
  }

  /// Job journals that are not acknowledged yet hold their work back. The
  /// contents that count as acknowledged are known to the reader of a journal.
  predicate WorkResolved(t: Tree, acknowledged: set<nat>) {
    && (JOBS in t ==> t[JOBS].Directory?)
    && (forall p <- t :: |p| == 2 && p[..1] == JOBS && IsUuid(p[1]) ==>
          (&& t[p].Directory? && p + ["journal.json"] in t && t[p + ["journal.json"]].File?
           && t[p + ["journal.json"]].content in acknowledged))
  }

  /// Some job is not known to be over: its journal is gone, no file, or not acknowledged.
  predicate Unresolved(t: Tree, acknowledged: set<nat>) {
    || (JOBS in t && !t[JOBS].Directory?)
    || (exists p <- t ::
          && |p| == 2 && p[0] == "jobs" && IsUuid(p[1])
          && (t[p].Directory? && p + ["journal.json"] in t && t[p + ["journal.json"]].File? ==>
                t[p + ["journal.json"]].content !in acknowledged))
  }

  lemma ResolvedExactly(t: Tree, acknowledged: set<nat>)
    ensures WorkResolved(t, acknowledged) <==> !Unresolved(t, acknowledged)
  {
    assert forall p: Path :: |p| == 2 ==> (p[..1] == JOBS <==> p[0] == "jobs");
    hide IsUuid;
  }

  predicate RegularOrGone(t: Tree, p: Path) {
    p in t ==> t[p].File?
  }

  predicate NamedReady(t: Tree, j: Journal) {
    && (HELPER in t && t[HELPER].File? && t[HELPER].content == j.helperDigest)
    && RegularOrGone(t, RECEIPT) && RegularOrGone(t, OWNED)
    && (RECEIPT in t ==> t[RECEIPT].content == j.receiptDigest) && (OWNED in t ==> t[OWNED].content == j.ownedDigest)
    && (RECEIPT !in t ==> j.phase.Cleanup?)
    && (SOCKET in t ==> t[SOCKET].Socket?)
  }

  predicate TreesReady(trees: map<Place, Tree>, quarantine: bool, j: Journal, acknowledged: set<nat>) {
    && PayloadReady(trees, quarantine, j) && StageReady(trees, j)
    && State in trees && EntriesReady(trees[State], j) && NamedReady(trees[State], j)
    && (!j.stateDeletingStarted ==> WorkResolved(trees[State], acknowledged))
  }

  predicate JournalReady(d: Disk, j: Journal, acknowledged: set<nat>) {
    && (j.phase.Revoked? || j.phase.Cleanup?) && j.Admitted() && j.target in j.paths
    && TreesReady(d.trees, d.quarantine, j, acknowledged)
    && (d.agent.Some? ==> d.agent.value == j.agentDigest)
    && (d.current.NoCurrent? || d.current == Link(j.target))
  }

  /// After the journal is gone, only the helper, the fence and the marker are left to remove.
  predicate MarkerReady(d: Disk, m: Journal, acknowledged: set<nat>) {
    && m.phase.Terminal? && m.Admitted() && State in d.trees
    && Goal(d) == Handed(d)
    && (HELPER in d.trees[State] ==> d.trees[State][HELPER].File? && d.trees[State][HELPER].content == m.helperDigest)
    && (!m.stateDeletingStarted ==> WorkResolved(d.trees[State], acknowledged))
    && (d.fence.Ours? || (d.fence.Retired? && d.evidence) || (d.fence.NoOperation? && !d.evidence))
  }

  /// What the terminal handover makes of a state.
  function Handed(d: Disk): Disk
    requires State in d.trees
  {
    d.(marker := None, fence := FinalFence(d.evidence), trees := d.trees[State := d.trees[State] - {HELPER}])
  }

  function FinalFence(evidence: bool): Fence {
    if evidence then Retired else NoOperation
  }

  predicate Ready(d: Disk, acknowledged: set<nat>) {
    match (d.journal, d.marker)
    case (Some(j), _) => JournalReady(d, j, acknowledged)
    case (None, Some(m)) => MarkerReady(d, m, acknowledged)
    case (None, None) => true
  }

  // ---- What is done already ------------------------------------------------

  datatype Task = Work | Payload | Staged | Agent | Resources | Entries | Socketed | Currently | Receipts

  predicate Cleared(d: Disk, j: Journal, task: Task) {
    match task
    case Work => !d.work
    case Payload => !d.quarantine && forall v <- j.paths :: Source(v) !in d.trees && Quarantine(v) !in d.trees
    case Staged => j.recovery.Some? ==> Stage !in d.trees
    case Agent => d.agent.None?
    case Resources => !d.resources
    case Entries => State in d.trees && forall e <- j.entries :: e.path !in d.trees[State]
    case Socketed => State in d.trees && SOCKET !in d.trees[State]
    case Currently => d.current.NoCurrent?
    case Receipts => State in d.trees && RECEIPT !in d.trees[State] && OWNED !in d.trees[State]
  }

  function Finished(d: Disk): set<Task> {
    if d.journal.None? then {} else set task: Task | Cleared(d, d.journal.value, task)
  }

  /// From `d`, the cleanup has come to `e`: it can still go on, to the same end.
  predicate Resumable(d: Disk, e: Disk, acknowledged: set<nat>) {
    && d.journal.Some? && e.journal.Some? && Plan(d.journal.value) == Plan(e.journal.value)
    && (d.journal.value.phase.Cleanup? ==> e.journal.value.phase.Cleanup?) && (d.fence.Ours? ==> e.fence.Ours?)
    && JournalReady(e, e.journal.value, acknowledged) && Goal(e) == Goal(d)
  }

  /// A part of the cleanup, complete or cut short anywhere, that undoes nothing.
  predicate Progress(d: Disk, e: Disk, acknowledged: set<nat>) {
    Resumable(d, e, acknowledged) && Finished(d) <= Finished(e)
  }

  /// `validate_journal`: what a run checks before it goes on.
  predicate ValidJournal(d: Disk, j: Journal) {
    && State in d.trees && HELPER in d.trees[State] && d.trees[State][HELPER].File?
    && d.trees[State][HELPER].content == j.helperDigest
    && (if RECEIPT in d.trees[State]
        then d.trees[State][RECEIPT].File? && d.trees[State][RECEIPT].content == j.receiptDigest else !j.phase.Revoked?)
    && (OWNED in d.trees[State] ==> d.trees[State][OWNED].File? && d.trees[State][OWNED].content == j.ownedDigest)
    && j.target in j.paths
    && (forall v <- j.paths :: v in j.inventories &&
          if Source(v) in d.trees then Inventoried(d.trees[Source(v)], j.inventories[v], !j.phase.Revoked?)
          else !j.phase.Revoked?)
  }

  /// The file is there with another content, or is no regular file.
  predicate Replaced(t: Tree, p: Path, content: nat) {
    p in t && (!t[p].File? || t[p].content != content)
  }

  /// Why a journal is not gone on from: the helper, a receipt or the owned list
  /// is not the recorded one, the target is not inventoried, or a version is
  /// not, or no longer, what its inventory says.
  predicate Invalid(d: Disk, j: Journal) {
    || State !in d.trees || HELPER !in d.trees[State] || Replaced(d.trees[State], HELPER, j.helperDigest)
    || Replaced(d.trees[State], RECEIPT, j.receiptDigest) || Replaced(d.trees[State], OWNED, j.ownedDigest)
    || (RECEIPT !in d.trees[State] && j.phase.Revoked?)
    || j.target !in j.paths
    || (exists v <- j.paths ::
          || v !in j.inventories
          || (Source(v) !in d.trees && j.phase.Revoked?)
          || (Source(v) in d.trees && Unsound(d.trees[Source(v)], j.inventories[v], !j.phase.Revoked?)))
  }

  lemma ValidExactly(d: Disk, j: Journal)
    ensures ValidJournal(d, j) <==> !Invalid(d, j)
  {
    forall v <- j.paths | v in j.inventories && Source(v) in d.trees
      ensures Inventoried(d.trees[Source(v)], j.inventories[v], !j.phase.Revoked?) <==>
              !Unsound(d.trees[Source(v)], j.inventories[v], !j.phase.Revoked?) {
      InventoriedExactly(d.trees[Source(v)], j.inventories[v], !j.phase.Revoked?);
    }
    hide Inventoried, Unsound;
  }

  lemma ReadyIsValid(d: Disk, j: Journal, acknowledged: set<nat>)
    requires d.journal == Some(j) && JournalReady(d, j, acknowledged)
    ensures ValidJournal(d, j)
  {
    forall v <- j.paths ensures VersionReady(d.trees, j, v) {
    }
    hide EntriesReady, StageReady, WorkResolved, Listed, ImpliedDirectories;
  }

  lemma OnlyHelperIsLeft(t: Tree, j: Journal)
    requires forall e <- j.entries :: e.path !in t
    requires SOCKET !in t && RECEIPT !in t && OWNED !in t
    ensures t - Doomed(j) == t - {HELPER}
  {
  }

  lemma OnlyTheStateIsLeft(d: Disk, j: Journal)
    requires State in d.trees
    requires forall v <- j.paths :: Source(v) !in d.trees && Quarantine(v) !in d.trees
    requires j.recovery.Some? ==> Stage !in d.trees
    ensures Remaining(d.trees, j) == d.trees[State := d.trees[State] - Doomed(j)]
  {
    forall place <- d.trees ensures Kept(place, j) {
    }
    hide Doomed;
  }

  lemma Dones(d: Disk, j: Journal)
    requires d.journal == Some(j) && State in d.trees && forall task: Task :: task in Finished(d)
    ensures (forall v <- j.paths :: Source(v) !in d.trees && Quarantine(v) !in d.trees) && !d.quarantine
    ensures (j.recovery.Some? ==> Stage !in d.trees) && d.agent.None? && !d.resources && !d.work && d.current.NoCurrent?
    ensures forall e <- j.entries :: e.path !in d.trees[State]
    ensures SOCKET !in d.trees[State] && RECEIPT !in d.trees[State] && OWNED !in d.trees[State]
  {
    assert Payload in Finished(d) && Staged in Finished(d) && Entries in Finished(d);
    assert Socketed in Finished(d) && Receipts in Finished(d);
    assert Work in Finished(d) && Agent in Finished(d) && Resources in Finished(d) && Currently in Finished(d);
  }

  /// The state in which the terminal marker has taken over from the journal.
  function HandedOver(d: Disk, j: Journal): Disk {
    d.(journal := None, marker := Some(j.(phase := Terminal)), fence := Ours)
  }

  /// When every task is done, only the terminal handover is left.
  lemma AllDone(d: Disk, j: Journal, acknowledged: set<nat>)
    requires d.journal == Some(j) && JournalReady(d, j, acknowledged) && forall task: Task :: task in Finished(d)
    ensures MarkerReady(HandedOver(d, j), j.(phase := Terminal), acknowledged)
    ensures Goal(HandedOver(d, j)) == Goal(d)
  {
    var m := j.(phase := Terminal);
    Dones(d, j);
    SamePlanSameRemains(d.trees, j, m);
    OnlyHelperIsLeft(d.trees[State], j);
    OnlyTheStateIsLeft(d, j);
    hide Remaining, Finished, Doomed, PayloadReady, StageReady, EntriesReady, WorkResolved;
  }

  lemma LockIsNotDoomed(j: Journal)
    requires forall e <- j.entries :: OwnedNamespace(e.path)
    ensures LOCK !in Doomed(j)
  {
    NamedFilesAreNotOwned();
    assert LOCK != SOCKET && LOCK != RECEIPT && LOCK != OWNED && LOCK != HELPER by {
      assert |LOCK[0]| == 11 && |SOCKET[0]| == 12 && |RECEIPT[0]| == 20 && |OWNED[0]| == 19 && |HELPER[0]| == 26;
    }
    hide OwnedNamespace;
  }

  lemma OwnedEntries(d: Disk, j: Journal, acknowledged: set<nat>)
    requires JournalReady(d, j, acknowledged)
    ensures State in d.trees && forall e <- j.entries :: OwnedNamespace(e.path)
  {
    hide OwnedNamespace, PayloadReady, StageReady, WorkResolved, NamedReady;
  }

  lemma GoalTrees(d: Disk, j: Journal)
    requires d.journal == Some(j) && State in d.trees
    ensures forall v <- j.paths :: Source(v) !in Goal(d).trees && Quarantine(v) !in Goal(d).trees
    ensures forall place <- d.trees :: place.Source? && place.v !in j.paths ==>
      place in Goal(d).trees && Goal(d).trees[place] == d.trees[place]
    ensures State in Goal(d).trees && Goal(d).trees[State] == d.trees[State] - Doomed(j)
    ensures Goal(d).trees.Keys <= d.trees.Keys && (Stage in Goal(d).trees <==> Stage in d.trees && j.recovery.None?)
  {
    hide Doomed;
  }

  lemma DoomedExactly(t: Tree, j: Journal)
    ensures forall p <- t ::
      if p == SOCKET || p == RECEIPT || p == OWNED || p == HELPER || exists e <- j.entries :: e.path == p
      then p !in t - Doomed(j) else p in t - Doomed(j) && (t - Doomed(j))[p] == t[p]
  {
  }

  lemma GoalElsewhere(d: Disk, j: Journal)
    requires d.journal == Some(j)
    ensures Goal(d).journal.None? && Goal(d).marker.None? && Goal(d).agent.None? && Goal(d).current.NoCurrent?
    ensures !Goal(d).quarantine && !Goal(d).resources && !Goal(d).work && Goal(d).evidence == d.evidence
    ensures Goal(d).fence == if d.evidence then Retired else NoOperation
  {
    hide Remaining;
  }

  /// The lock file and everything that is not inventoried is in the goal as it
  /// was; everything inventoried is gone.
  lemma GoalIsExact(d: Disk, j: Journal, acknowledged: set<nat>)
    requires d.journal == Some(j) && JournalReady(d, j, acknowledged)
    ensures forall v <- j.paths :: Source(v) !in Goal(d).trees && Quarantine(v) !in Goal(d).trees
    ensures forall place <- d.trees :: place.Source? && place.v !in j.paths ==>
      place in Goal(d).trees && Goal(d).trees[place] == d.trees[place]
    ensures State in d.trees && State in Goal(d).trees
    ensures forall p <- d.trees[State] ::
      if p == SOCKET || p == RECEIPT || p == OWNED || p == HELPER || exists e <- j.entries :: e.path == p
      then p !in Goal(d).trees[State] else p in Goal(d).trees[State] && Goal(d).trees[State][p] == d.trees[State][p]
    ensures Goal(d).trees[State].Keys <= d.trees[State].Keys && Goal(d).trees.Keys <= d.trees.Keys
    ensures Stage in Goal(d).trees <==> Stage in d.trees && j.recovery.None?
    ensures LOCK in d.trees[State] ==>
      LOCK in Goal(d).trees[State] && Goal(d).trees[State][LOCK] == d.trees[State][LOCK]
    ensures Goal(d).journal.None? && Goal(d).marker.None? && Goal(d).agent.None? && Goal(d).current.NoCurrent?
    ensures !Goal(d).quarantine && !Goal(d).resources && !Goal(d).work && Goal(d).evidence == d.evidence
    ensures Goal(d).fence == if d.evidence then Retired else NoOperation
  {
    OwnedEntries(d, j, acknowledged);
    LockIsNotDoomed(j);
    GoalTrees(d, j);
    GoalElsewhere(d, j);
    DoomedExactly(d.trees[State], j);
    hide JournalReady, OwnedNamespace, Doomed, Goal, Finished;
  }
}
