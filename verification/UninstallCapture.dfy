// How the cleanup comes to its first resumable state: the capture of the state
// directory, and the journal of a freshly revoked installation.

module UninstallCapture {
  import opened Basics
  import opened FileTrees
  import opened UninstallState
  import Phases = UninstallPhases

  predicate Capturable(t: Tree, p: Path) {
    OwnedNamespace(p) && p in t && (t[p].Directory? || (t[p].File? && t[p].links == 1))
  }

  function EntryOf(p: Path, node: Node): Entry {
    Entry(p, if node.File? then Some(FileEntry(node.content, node.mode)) else None)
  }

  /// The entries describe every candidate, once, as it is in the tree.
  predicate Captured(t: Tree, candidates: set<Path>, entries: seq<Entry>) {
    && DistinctEntries(entries) && Paths(entries) == candidates
    && forall e <- entries :: OwnedNamespace(e.path) && e.path in t && !Changed(e, t[e.path])
  }

  /// Nothing is in a candidate directory that is not a candidate itself.
  predicate ClosedBelow(t: Tree, candidates: set<Path>) {
    forall p <- t, d <- candidates :: d in t && t[d].Directory? && Child(d, p) ==> p in candidates
  }

  /// `capture_state_entries`: describes every candidate, or refuses them all.
  method Capture(t: Tree, candidates: set<Path>) returns (ok: bool, entries: seq<Entry>)
    ensures ok <==> forall p <- candidates ::
      OwnedNamespace(p) && p in t && (t[p].Directory? || (t[p].File? && t[p].links == 1))
    ensures ok ==> Captured(t, candidates, entries)
  {
    entries := [];
    var rest := candidates;
    while rest != {}
      invariant rest <= candidates && Paths(entries) == candidates - rest && DistinctEntries(entries)
      invariant forall e <- entries :: Capturable(t, e.path) && e.Describes(t[e.path])
      decreases |rest|
    {
      var p :| p in rest;
      if !Capturable(t, p) {
        return false, [];
      }
      CaptureNext(entries, EntryOf(p, t[p]));
      rest := rest - {p};
      entries := entries + [EntryOf(p, t[p])];
    }
    ok := true;
    forall p <- candidates ensures Capturable(t, p) {
      assert p in Paths(entries);
    }
    hide OwnedNamespace;
  }

  lemma CaptureNext(entries: seq<Entry>, e: Entry)
    requires DistinctEntries(entries) && e.path !in Paths(entries)
    ensures DistinctEntries(entries + [e]) && Paths(entries + [e]) == Paths(entries) + {e.path}
  {
    forall f <- entries ensures f.path in Paths(entries) {
    }
    forall p | p in Paths(entries) + {e.path} ensures p in Paths(entries + [e]) {
      if p != e.path {
        var f :| f in entries && f.path == p;
        assert f in entries + [e];
      } else {
        assert e in entries + [e];
      }
    }
  }

  /// A capture that holds every child of its directories passes its own check later.
  lemma CaptureIsReady(t: Tree, candidates: set<Path>, j: Journal)
    requires Captured(t, candidates, j.entries) && ClosedBelow(t, candidates)
    ensures EntriesReady(t, j)
  {
    forall e <- j.entries ensures e.path in Paths(j.entries) {
    }
    hide OwnedNamespace, Listed;
  }

  /// The journal that the runs up to the revocation have left, never cleaned up
  /// from, over an installation that is whole.
  predicate FreshlyRevoked(d: Disk, j: Journal) {
    && j.phase.Revoked? && j.run.phase.Revoked? && Phases.MayClean(j.run)
    && j.moved == {} && j.deletingStarted == {} && !j.stateDeletingStarted
    && d.journal == Some(j) && d.marker.None? && !d.quarantine && forall place <- d.trees :: !place.Quarantine?
  }

  /// What `Runner.Run` and `Capture` provide is all that the first cleanup needs.
  lemma FreshlyRevokedIsReady(d: Disk, j: Journal, candidates: set<Path>, acknowledged: set<nat>)
    requires FreshlyRevoked(d, j) && ValidJournal(d, j) && WorkResolved(d.trees[State], acknowledged)
    requires Captured(d.trees[State], candidates, j.entries) && ClosedBelow(d.trees[State], candidates)
    requires j.recovery.Some? && Stage in d.trees ==> Inventoried(d.trees[Stage], j.recovery.value.files, false)
    requires SOCKET in d.trees[State] ==> d.trees[State][SOCKET].Socket?
    requires d.agent.None? || d.agent == Some(j.agentDigest)
    requires d.current.NoCurrent? || d.current == Link(j.target)
    ensures Ready(d, acknowledged)
  {
    FreshPayload(d, j);
    FreshStage(d, j);
    FreshNames(d, j);
    CaptureIsReady(d.trees[State], candidates, j);
    hide EntriesReady, WorkResolved, PayloadReady, StageReady, NamedReady, FreshlyRevoked, Captured, ClosedBelow,
      ValidJournal;
  }

  lemma FreshStage(d: Disk, j: Journal)
    requires j.recovery.Some? && Stage in d.trees ==> Inventoried(d.trees[Stage], j.recovery.value.files, false)
    ensures StageReady(d.trees, j)
  {
    hide Listed, ImpliedDirectories;
  }

  lemma FreshNames(d: Disk, j: Journal)
    requires ValidJournal(d, j) && j.phase.Revoked?
    requires SOCKET in d.trees[State] ==> d.trees[State][SOCKET].Socket?
    ensures State in d.trees && NamedReady(d.trees[State], j) && j.target in j.paths
  {
    hide Inventoried;
  }

  lemma FreshPayload(d: Disk, j: Journal)
    requires FreshlyRevoked(d, j) && ValidJournal(d, j)
    ensures PayloadReady(d.trees, d.quarantine, j)
    ensures j.phase.Revoked? && j.Admitted() && !j.stateDeletingStarted && d.journal == Some(j)
  {
    forall v <- j.paths ensures VersionReady(d.trees, j, v) {
    }
    hide Inventoried;
  }
}
