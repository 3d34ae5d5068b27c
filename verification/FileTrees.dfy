// Directory trees and the inventories that own parts of them. Paths are lists
// of names; a tree lists everything below its root, which is not listed itself.

module FileTrees {
  import opened Basics

  type Path = seq<string>

  datatype Node =
    | Directory
    | File(content: nat, mode: nat, links: nat)  // equal contents have equal digests and sizes
    | Socket
    | Alien  // a symbolic link, a device, or another user's entry

  type Tree = map<Path, Node>

  datatype FileEntry = FileEntry(content: nat, mode: nat)

  /// An inventory of files; their directories are implied.
  type Inventory = map<Path, FileEntry>

  predicate Child(parent: Path, path: Path) {
    |path| == |parent| + 1 && path[..|parent|] == parent
  }

  /// What `rmdir` needs.
  predicate EmptyAt(t: Tree, p: Path) {
    forall q <- t :: !Child(p, q)
  }

  function ImpliedDirectories(inventory: Inventory): set<Path> {
    set p, k | p in inventory.Keys && 0 < k < |p| :: p[..k]
  }

  predicate Listed(entry: FileEntry, node: Node) {
    node.File? && node.content == entry.content && node.mode == entry.mode
  }

  /// `prune_quarantine_inventory`: nothing but what is listed, all of it unless
  /// a part may already be gone.
  predicate Inventoried(t: Tree, inventory: Inventory, allowMissing: bool) {
    && [] !in inventory
    && (forall p <- t :: if t[p].Directory? then p in ImpliedDirectories(inventory)
                         else p in inventory && Listed(inventory[p], t[p]))
    && (!allowMissing ==> inventory.Keys <= t.Keys)
  }

  /// What the inventory does not allow at this place: a changed or unlisted
  /// file, anything that is no file, or a directory on the way to no listed file.
  predicate Foreign(t: Tree, inventory: Inventory, p: Path) {
    p in t &&
    if t[p].Directory? then
      p == [] || forall q <- inventory :: |q| <= |p| || q[..|p|] != p
    else
      || p !in inventory
      || !t[p].File? || t[p].content != inventory[p].content || t[p].mode != inventory[p].mode
  }

  /// The tree holds something foreign, or lacks a listed file that must be there.
  predicate Unsound(t: Tree, inventory: Inventory, allowMissing: bool) {
    || [] in inventory
    || (exists p <- t :: Foreign(t, inventory, p))
    || (!allowMissing && exists p <- inventory :: p !in t)
  }

  lemma InventoriedExactly(t: Tree, inventory: Inventory, allowMissing: bool)
    ensures Inventoried(t, inventory, allowMissing) <==> !Unsound(t, inventory, allowMissing)
  {
    if [] !in inventory {
      forall p <- t ensures Foreign(t, inventory, p) <==>
          !if t[p].Directory? then p in ImpliedDirectories(inventory)
           else p in inventory && Listed(inventory[p], t[p]) {
        ImpliedExactly(inventory, p);
      }
    }
    hide ImpliedDirectories, Foreign;
  }

  lemma ImpliedExactly(inventory: Inventory, p: Path)
    ensures p in ImpliedDirectories(inventory) <==> p != [] && exists q <- inventory :: |q| > |p| && q[..|p|] == p
  {
  }

  lemma FewerAreInventoried(t: Tree, inventory: Inventory, allowMissing: bool, gone: set<Path>)
    requires Inventoried(t, inventory, allowMissing)
    ensures Inventoried(t - gone, inventory, true)
  {
    hide Listed;
  }

  predicate DeepestFirst(dirs: seq<Path>) {
    forall i, j :: 0 <= i < j < |dirs| ==> |dirs[i]| >= |dirs[j]|
  }

  predicate Distinct(paths: seq<Path>) {
    forall i, j :: 0 <= i < j < |paths| ==> paths[i] != paths[j]
  }

  /// The files of a tree, in some order.
  method FilesOf(t: Tree) returns (files: seq<Path>)
    ensures Distinct(files) && forall p :: p in files <==> p in t && !t[p].Directory?
  {
    files := ListOf(set p | p in t && !t[p].Directory?);
  }

  method ListOf(paths: set<Path>) returns (list: seq<Path>)
    ensures Distinct(list) && forall p :: p in list <==> p in paths
  {
    list := [];
    var rest := paths;
    while rest != {}
      invariant Distinct(list) && rest <= paths && forall p :: p in list <==> p in paths - rest
      decreases |rest|
    {
      var p :| p in rest;
      assert p !in list;
      rest := rest - {p};
      list := list + [p];
    }
  }

  /// Sorts by the number of components, most first.
  method SortDeepestFirst(paths: seq<Path>) returns (dirs: seq<Path>)
    requires Distinct(paths)
    ensures DeepestFirst(dirs) && Distinct(dirs) && forall p :: p in dirs <==> p in paths
  {
    dirs := [];
    for n := 0 to |paths|
      invariant DeepestFirst(dirs) && Distinct(dirs) && forall p :: p in dirs <==> p in paths[..n]
    {
      var k := 0;
      while k < |dirs| && |dirs[k]| >= |paths[n]|
        invariant 0 <= k <= |dirs| && forall i :: 0 <= i < k ==> |dirs[i]| >= |paths[n]|
      {
        k := k + 1;
      }
      dirs := Inserted(dirs, k, paths[n]);
    }
    assert paths[..|paths|] == paths;
  }

  function Inserted(dirs: seq<Path>, k: nat, p: Path): (r: seq<Path>)
    requires k <= |dirs| && DeepestFirst(dirs) && Distinct(dirs) && p !in dirs
    requires (forall i :: 0 <= i < k ==> |dirs[i]| >= |p|) && (k < |dirs| ==> |dirs[k]| < |p|)
    ensures DeepestFirst(r) && Distinct(r) && forall q :: q in r <==> q in dirs || q == p
  {
    var r := dirs[..k] + [p] + dirs[k..];
    assert forall q :: q in dirs <==> q in dirs[..k] || q in dirs[k..];
    r
  }
}
