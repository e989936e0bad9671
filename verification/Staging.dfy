/** Folder creation when an offer is accepted: depth ordered, and all or nothing. */
module Staging {
  import opened Names
  import opened Manifest
  import opened Validation
  import opened ConflictNames
  import opened Destinations
  import opened Disk

  /** What the operating system grants: `fits` is the path-length check, `mkdir` and
      `staging` stand for every other reason a folder cannot be made. */
  datatype Permissions = Permissions(
    destination: bool,
    available: Option<nat>,
    fits: Path -> bool,
    mkdir: Path -> bool,
    staging: bool)

  function StagingPath(fold: Fold): Path { [fold(STAGING_NAME)] }

  // ---- the depth sort ----

  ghost predicate SortedByDepth(entries: seq<Entry>, order: seq<nat>) {
    && (forall i | 0 <= i < |order| :: order[i] < |entries|)
    && forall i, j | 0 <= i < j < |order| :: |entries[order[i]].path| <= |entries[order[j]].path|
  }

  ghost predicate NoDuplicates(order: seq<nat>) {
    forall i, j | 0 <= i < j < |order| :: order[i] != order[j]
  }

  function InsertByDepth(entries: seq<Entry>, n: nat, order: seq<nat>): (r: seq<nat>)
    requires n < |entries| && SortedByDepth(entries, order) && NoDuplicates(order) && n !in order
    ensures SortedByDepth(entries, r) && NoDuplicates(r)
    ensures forall x :: x in r <==> x == n || x in order
  {
    if order == [] then [n]
    else if |entries[n].path| <= |entries[order[0]].path| then [n] + order
    else
      var rest := InsertByDepth(entries, n, order[1..]);
      assert order == [order[0]] + order[1..];
      assert SortedByDepth(entries, [order[0]] + rest) && NoDuplicates([order[0]] + rest) by {
        ShallowestFirst(entries, order[0], rest);
      }
      [order[0]] + rest
  }

  lemma ShallowestFirst(entries: seq<Entry>, first: nat, rest: seq<nat>)
    requires first < |entries| && SortedByDepth(entries, rest) && NoDuplicates(rest)
    requires forall x | x in rest :: x != first && x < |entries| && |entries[first].path| <= |entries[x].path|
    ensures SortedByDepth(entries, [first] + rest) && NoDuplicates([first] + rest)
  {
    assert forall i | 0 <= i < |rest| :: rest[i] in rest;
  }

  function SortByDepth(entries: seq<Entry>, order: seq<nat>): (r: seq<nat>)
    requires forall i | 0 <= i < |order| :: order[i] < |entries|
    requires NoDuplicates(order)
    ensures SortedByDepth(entries, r) && NoDuplicates(r)
    ensures forall x :: x in r <==> x in order
  {
    if order == [] then []
    else
      assert order == [order[0]] + order[1..];
      InsertByDepth(entries, order[0], SortByDepth(entries, order[1..]))
  }

  // ---- what preparation needs, and what it makes ----

  ghost predicate IsFolderEntry(o: Offer, i: nat) {
    i < |o.entries| && o.entries[i].kind == FolderKind
  }

  ghost predicate IsRootEntry(o: Offer, i: nat) {
    i < |o.entries| && |o.entries[i].path| == 1
  }

  /** The folded final path of entry `i`. */
  function At(fold: Fold, o: Offer, i: nat): Path {
    if i < |o.entries| && Defined(fold, o, o.entries[i].path) then Destination(fold, o, o.entries[i].path) else []
  }

  lemma AtIsInjective(fold: Fold, listed: set<string>, o: Offer, i: nat, j: nat)
    requires Approved(fold, listed, o) && i < |o.entries| && j < |o.entries| && i != j
    ensures At(fold, o, i) != At(fold, o, j)
  {
    hide Approved;
    DestinationsAreInjective(fold, listed, o, i, j);
  }

  predicate Granted(fold: Fold, o: Offer, env: Permissions, i: nat) {
    && i < |o.entries| && Defined(fold, o, o.entries[i].path)
    && env.fits(IncomingPath(fold, o, o.entries[i].path))
    && (o.entries[i].kind == FolderKind ==> env.mkdir(At(fold, o, i)))
  }

  /** A root may be created: its final path is free and the system lets it be. */
  ghost predicate RootReady(fold: Fold, o: Offer, env: Permissions, disk: Disk, i: nat) {
    Granted(fold, o, env, i) && At(fold, o, i) !in disk
  }

  ghost predicate RootsReady(fold: Fold, o: Offer, env: Permissions, disk: Disk) {
    forall i: nat | IsRootEntry(o, i) :: RootReady(fold, o, env, disk, i)
  }

  ghost predicate NestedReady(fold: Fold, o: Offer, env: Permissions) {
    forall i: nat | IsFolderEntry(o, i) && !IsRootEntry(o, i) :: Granted(fold, o, env, i)
  }

  ghost function FolderDestinations(fold: Fold, o: Offer): set<Path> {
    set i: nat | i < |o.entries| && IsFolderEntry(o, i) :: At(fold, o, i)
  }

  /** Nothing but a file in the staging folder's place, or a refusal, stops it. */
  ghost predicate StagingReady(fold: Fold, o: Offer, env: Permissions, disk: Disk) {
    env.staging && (StagingPath(fold) in disk ==> disk[StagingPath(fold)] == Folder)
  }

  /** The destination is a safe folder, and has room when its room is known. */
  predicate DestinationReady(o: Offer, env: Permissions) {
    env.destination && (env.available.Some? ==> TotalSize(o.entries) <= env.available.value)
  }

  /** The exact condition for accepting an offer to get through preparation. It speaks
      of the disk before the first folder is made: no nested folder can conflict. */
  ghost predicate CanPrepare(fold: Fold, o: Offer, env: Permissions, disk: Disk) {
    DestinationReady(o, env) && RootsReady(fold, o, env, disk) && NestedReady(fold, o, env) && StagingReady(fold, o, env, disk)
  }

  // ---- folders made so far ----

  ghost predicate LengthOrdered(created: seq<Path>) {
    forall a, b | 0 <= a < b < |created| :: |created[a]| <= |created[b]| && created[a] != created[b]
  }

  lemma LengthOrderedIsParentsFirst(created: seq<Path>)
    requires LengthOrdered(created)
    ensures ParentsFirst(created)
  {
    forall i, j | 0 <= i < j < |created| ensures !(created[j] <= created[i]) {
      assert |created[i]| <= |created[j]|;
    }
  }

  /** The folder entries in `made` have been created, in that order, on top of `base`. */
  ghost predicate Making(fold: Fold, o: Offer, base: Disk, disk: Disk, created: seq<Path>, made: seq<nat>) {
    && disk == base + Folders(Elements(created))
    && |created| == |made|
    && (forall k | 0 <= k < |made| :: IsFolderEntry(o, made[k]) && created[k] == At(fold, o, made[k]))
    && (forall k | 0 <= k < |created| :: created[k] !in base)
    && LengthOrdered(created)
  }

  lemma MadeOneMore(fold: Fold, listed: set<string>, o: Offer, base: Disk, disk: Disk, created: seq<Path>, made: seq<nat>, i: nat)
    requires Approved(fold, listed, o) && Making(fold, o, base, disk, created, made)
    requires IsFolderEntry(o, i) && i !in made && At(fold, o, i) !in base
    requires forall k | 0 <= k < |created| :: |created[k]| <= |At(fold, o, i)|
    ensures Making(fold, o, base, disk[At(fold, o, i) := Folder], created + [At(fold, o, i)], made + [i])
    ensures At(fold, o, i) !in created
  {
    hide Approved, At, LengthOrdered;
    var p := At(fold, o, i);
    forall k | 0 <= k < |made| ensures created[k] != p {
      AtIsInjective(fold, listed, o, i, made[k]);
    }
    assert p !in created;
    LengthOrderedGrows(created, p);
    FolderAdded(base, created, p);
  }

  lemma FolderAdded(base: Disk, created: seq<Path>, p: Path)
    ensures (base + Folders(Elements(created)))[p := Folder] == base + Folders(Elements(created + [p]))
  {
    assert Elements(created + [p]) == Elements(created) + {p};
  }

  lemma LengthOrderedGrows(created: seq<Path>, p: Path)
    requires LengthOrdered(created) && p !in created && forall c | c in created :: |c| <= |p|
    ensures LengthOrdered(created + [p])
  {
    var created' := created + [p];
    forall a, b | 0 <= a < b < |created'| ensures |created'[a]| <= |created'[b]| && created'[a] != created'[b] {
      assert created'[a] in created;
    }
  }

  lemma MakingIsLayered(fold: Fold, o: Offer, base: Disk, disk: Disk, created: seq<Path>, made: seq<nat>)
    requires IsTree(base) && Making(fold, o, base, disk, created, made)
    ensures Layered(disk, base, map[], {}, created)
  {
    hide IsTree, ParentsFirst, LengthOrdered, At, IsFolderEntry;
    LengthOrderedIsParentsFirst(created);
    NothingOldBelow(base, created);
    NothingAdded(base);
  }

  lemma NothingAdded(base: Disk)
    ensures base + map[] + Folders({}) == base
  {
  }

  // ---- parents of nested folders ----

  /** Each ancestor of a destination is the destination of a folder entry. */
  lemma AncestorEntry(fold: Fold, listed: set<string>, o: Offer, i: nat, k: nat) returns (f: nat)
    requires Approved(fold, listed, o) && i < |o.entries| && 1 <= k < |o.entries[i].path|
    ensures IsFolderEntry(o, f) && |o.entries[f].path| == k
    ensures |At(fold, o, i)| == |o.entries[i].path|
    ensures At(fold, o, f) == At(fold, o, i)[..k]
  {
    hide SafeComponent, Resolved, Roots, UniqueKeys;
    var path := o.entries[i].path;
    assert AncestorsAreIn(fold, o.entries, path);
    assert FolderAt(fold, o.entries, path[..k]);
    f :| 0 <= f < |o.entries| && Key(fold, o.entries[f].path) == Key(fold, path[..k]) && o.entries[f].kind == FolderKind;
    KeyOfPrefix(fold, path, k);
    EveryEntryIsDefined(fold, listed, o, i);
    EveryEntryIsDefined(fold, listed, o, f);
    assert fold(o.entries[f].path[0]) == Key(fold, o.entries[f].path)[0] == Key(fold, path)[0];
    assert Key(fold, path)[..k][1..] == Key(fold, path)[1..][..k - 1];
    var p := At(fold, o, i);
    assert p[..k] == [p[0]] + Key(fold, path)[1..][..k - 1];
  }

  lemma NothingBelowAFreePath(base: Disk, root: Path, p: Path)
    requires IsTree(base) && root !in base && root <= p
    ensures p !in base
  {
    hide IsTree;
    if p in base {
      assert root != p;
      TreeHasAncestors(base, root, p);
    }
  }

  lemma RootOfDestination(fold: Fold, listed: set<string>, o: Offer, i: nat) returns (r: nat)
    requires Approved(fold, listed, o) && i < |o.entries|
    ensures IsRootEntry(o, r) && At(fold, o, r) <= At(fold, o, i)
  {
    hide Approved;
    r := RootOf(fold, listed, o, i);
    EveryEntryIsDefined(fold, listed, o, i);
    EveryEntryIsDefined(fold, listed, o, r);
  }

  // ---- roots ----

  lemma RootIndexIsUnique(fold: Fold, listed: set<string>, o: Offer, r: nat, i: nat)
    requires Approved(fold, listed, o) && r < |Roots(o.entries)| && i < |o.entries|
    requires Key(fold, o.entries[i].path) == Key(fold, [Roots(o.entries)[r]])
    ensures IsRootEntry(o, i) && o.entries[i].path == [Roots(o.entries)[r]]
  {
    hide Resolved, SafePaths, AncestorsPresent;
    var j := RootHasEntry(o.entries, r);
    SameKeySameIndex(fold, o.entries, i, j);
  }

  lemma SameKeySameIndex(fold: Fold, entries: seq<Entry>, i: nat, j: nat)
    requires UniqueKeys(fold, entries) && i < |entries| && j < |entries|
    requires Key(fold, entries[i].path) == Key(fold, entries[j].path)
    ensures i == j
  {
  }

  lemma RootsDiffer(fold: Fold, listed: set<string>, o: Offer, r: nat)
    requires Approved(fold, listed, o) && r < |Roots(o.entries)|
    ensures Roots(o.entries)[r] !in Roots(o.entries)[..r]
  {
    hide Resolved, SafePaths, AncestorsPresent;
    RootKeysAreDistinct(fold, o.entries);
  }

  ghost predicate RootsDone(fold: Fold, o: Offer, env: Permissions, base: Disk, made: seq<nat>, r: nat)
    requires r <= |Roots(o.entries)|
  {
    && (forall i: nat | IsRootEntry(o, i) && o.entries[i].path[0] in Roots(o.entries)[..r] ::
          RootReady(fold, o, env, base, i) && (IsFolderEntry(o, i) ==> i in made))
    && forall i | i in made :: IsRootEntry(o, i) && IsFolderEntry(o, i) && o.entries[i].path[0] in Roots(o.entries)[..r]
  }

  lemma NotYetMade(fold: Fold, listed: set<string>, o: Offer, base: Disk, disk: Disk, created: seq<Path>, made: seq<nat>, i: nat)
    requires Approved(fold, listed, o) && Making(fold, o, base, disk, created, made) && i < |o.entries| && i !in made
    ensures At(fold, o, i) in disk <==> At(fold, o, i) in base
  {
    hide Approved, At, LengthOrdered;
    forall k | 0 <= k < |made| ensures created[k] != At(fold, o, i) {
      AtIsInjective(fold, listed, o, i, made[k]);
    }
  }

  lemma RootsDoneGrows(fold: Fold, listed: set<string>, o: Offer, env: Permissions, base: Disk, made: seq<nat>, r: nat, i: nat, made': seq<nat>)
    requires Approved(fold, listed, o) && r < |Roots(o.entries)|
    requires RootsDone(fold, o, env, base, made, r)
    requires i < |o.entries| && o.entries[i].path == [Roots(o.entries)[r]] && RootReady(fold, o, env, base, i)
    requires made' == if IsFolderEntry(o, i) then made + [i] else made
    ensures RootsDone(fold, o, env, base, made', r + 1)
    ensures i !in made
  {
    hide RootReady;
    var roots := Roots(o.entries);
    assert roots[..r + 1] == roots[..r] + [roots[r]];
    RootsDiffer(fold, listed, o, r);
    forall j: nat | IsRootEntry(o, j) && o.entries[j].path[0] in roots[..r + 1]
      ensures RootReady(fold, o, env, base, j) && (IsFolderEntry(o, j) ==> j in made')
    {
      if o.entries[j].path[0] == roots[r] {
        assert o.entries[j].path == [roots[r]];
        SamePathSameIndex(fold, listed, o, i, j);
      }
    }
  }

  lemma SamePathSameIndex(fold: Fold, listed: set<string>, o: Offer, i: nat, j: nat)
    requires Approved(fold, listed, o) && i < |o.entries| && j < |o.entries| && o.entries[i].path == o.entries[j].path
    ensures i == j
  {
    hide Resolved, SafePaths, AncestorsPresent;
  }

  lemma RootNotYetMade(
    fold: Fold, listed: set<string>, o: Offer, env: Permissions,
    base: Disk, disk: Disk, created: seq<Path>, made: seq<nat>, r: nat, i: nat)
    requires Approved(fold, listed, o) && Making(fold, o, base, disk, created, made)
    requires r < |Roots(o.entries)| && RootsDone(fold, o, env, base, made, r)
    requires i < |o.entries| && o.entries[i].path == [Roots(o.entries)[r]]
    ensures i !in made && (RootReady(fold, o, env, disk, i) <==> RootReady(fold, o, env, base, i))
    ensures forall k | 0 <= k < |created| :: |created[k]| <= |At(fold, o, i)|
    ensures |At(fold, o, i)| == 1
  {
    hide Approved, At, LengthOrdered, Granted;
    RootsDiffer(fold, listed, o, r);
    NotYetMade(fold, listed, o, base, disk, created, made, i);
    DepthIsLength(fold, listed, o, i);
    forall k | 0 <= k < |created| ensures |created[k]| <= |At(fold, o, i)| {
      DepthIsLength(fold, listed, o, made[k]);
      assert made[k] in made;
    }
  }

  lemma RootReadyIsFree(fold: Fold, o: Offer, env: Permissions, base: Disk, i: nat)
    requires RootReady(fold, o, env, base, i)
    ensures At(fold, o, i) !in base && Granted(fold, o, env, i)
  {
  }

  lemma RootRefused(fold: Fold, o: Offer, env: Permissions, base: Disk, i: nat)
    requires IsRootEntry(o, i) && !RootReady(fold, o, env, base, i)
    ensures !RootsReady(fold, o, env, base)
  {
  }

  lemma NothingMade(fold: Fold, o: Offer, env: Permissions, disk: Disk)
    ensures Making(fold, o, disk, disk, [], []) && RootsDone(fold, o, env, disk, [], 0)
  {
    assert disk + Folders(Elements([])) == disk;
  }

  lemma AllRootsDone(fold: Fold, o: Offer, env: Permissions, base: Disk, made: seq<nat>)
    requires RootsDone(fold, o, env, base, made, |Roots(o.entries)|)
    ensures RootsReady(fold, o, env, base)
    ensures forall i: nat :: i in made <==> IsFolderEntry(o, i) && IsRootEntry(o, i)
  {
    hide RootReady;
    forall i: nat | IsRootEntry(o, i) ensures o.entries[i].path[0] in Roots(o.entries)[..|Roots(o.entries)|] {
      RootIsListed(o.entries, i);
    }
  }

  // ---- nested folders, shallow ones first ----

  function NestedFolders(entries: seq<Entry>, n: nat): (r: seq<nat>)
    requires n <= |entries|
    ensures NoDuplicates(r) && forall k | 0 <= k < |r| :: r[k] < n
    ensures forall i: nat :: i in r <==> i < n && entries[i].kind == FolderKind && |entries[i].path| != 1
  {
    if n == 0 then []
    else if entries[n - 1].kind == FolderKind && |entries[n - 1].path| != 1 then NestedFolders(entries, n - 1) + [n - 1]
    else NestedFolders(entries, n - 1)
  }

  ghost predicate NestedDone(fold: Fold, o: Offer, env: Permissions, made: seq<nat>, order: seq<nat>, n: nat)
    requires n <= |order|
  {
    && (forall i | i in made :: (IsRootEntry(o, i) && IsFolderEntry(o, i)) || i in order[..n])
    && (forall i: nat | IsRootEntry(o, i) && IsFolderEntry(o, i) :: i in made)
    && (forall k | 0 <= k < n :: order[k] in made && Granted(fold, o, env, order[k]))
  }

  lemma OnlyRootsMade(fold: Fold, o: Offer, env: Permissions, made: seq<nat>, order: seq<nat>)
    requires forall i: nat :: i in made <==> IsFolderEntry(o, i) && IsRootEntry(o, i)
    ensures NestedDone(fold, o, env, made, order, 0)
  {
  }

  ghost predicate IsNestedOrder(o: Offer, order: seq<nat>) {
    && SortedByDepth(o.entries, order)
    && NoDuplicates(order)
    && forall i: nat :: i in order <==> IsFolderEntry(o, i) && !IsRootEntry(o, i)
  }

  lemma ParentIsMade(
    fold: Fold, listed: set<string>, o: Offer, env: Permissions, made: seq<nat>, order: seq<nat>, n: nat)
    returns (k: nat)
    requires Approved(fold, listed, o) && IsNestedOrder(o, order) && n < |order| && NestedDone(fold, o, env, made, order, n)
    ensures k < |made| && |At(fold, o, order[n])| >= 2
    ensures At(fold, o, made[k]) == At(fold, o, order[n])[..|At(fold, o, order[n])| - 1]
  {
    hide Approved, At, Granted;
    var i := order[n];
    assert i in order;
    PathLength(fold, listed, o, i);
    var f := AncestorEntry(fold, listed, o, i, |o.entries[i].path| - 1);
    if !IsRootEntry(o, f) {
      assert f in order;
      var m :| 0 <= m < |order| && order[m] == f;
      assert m < n;
    }
    assert f in made;
    k :| 0 <= k < |made| && made[k] == f;
  }

  lemma MadeAreNoDeeper(
    fold: Fold, listed: set<string>, o: Offer, env: Permissions,
    base: Disk, disk: Disk, created: seq<Path>, made: seq<nat>, order: seq<nat>, n: nat)
    requires Approved(fold, listed, o) && Making(fold, o, base, disk, created, made)
    requires IsNestedOrder(o, order) && n < |order| && NestedDone(fold, o, env, made, order, n)
    ensures order[n] !in made
    ensures forall k | 0 <= k < |created| :: |created[k]| <= |At(fold, o, order[n])|
  {
    hide Approved, At, LengthOrdered, Granted;
    var i := order[n];
    assert i in order && i !in order[..n];
    DepthIsLength(fold, listed, o, i);
    PathLength(fold, listed, o, i);
    forall k | 0 <= k < |created| ensures |created[k]| <= |At(fold, o, i)| {
      DepthIsLength(fold, listed, o, made[k]);
      assert made[k] in made;
      if made[k] in order[..n] {
        var q :| 0 <= q < n && order[q] == made[k];
      }
    }
  }

  lemma NestedPlaceIsFree(
    fold: Fold, listed: set<string>, o: Offer, env: Permissions, base: Disk, i: nat)
    requires Approved(fold, listed, o) && IsTree(base) && RootsReady(fold, o, env, base) && i < |o.entries|
    ensures At(fold, o, i) !in base
  {
    hide Approved, At, IsTree, Granted;
    var r := RootOfDestination(fold, listed, o, i);
    assert RootReady(fold, o, env, base, r);
    NothingBelowAFreePath(base, At(fold, o, r), At(fold, o, i));
  }

  /** The heart of preparation: when its turn comes, a nested folder's parent exists
      and its own place is free. */
  lemma NestedFolderCanBeMade(
    fold: Fold, listed: set<string>, o: Offer, env: Permissions,
    base: Disk, disk: Disk, created: seq<Path>, made: seq<nat>, order: seq<nat>, n: nat)
    requires Approved(fold, listed, o) && IsTree(base) && RootsReady(fold, o, env, base)
    requires Making(fold, o, base, disk, created, made)
    requires IsNestedOrder(o, order) && n < |order| && NestedDone(fold, o, env, made, order, n)
    ensures CanMkdir(disk, At(fold, o, order[n])) && order[n] !in made && At(fold, o, order[n]) !in base
    ensures forall k | 0 <= k < |created| :: |created[k]| <= |At(fold, o, order[n])|
  {
    hide Approved, At, IsTree, LengthOrdered, RootsReady, NestedDone, IsNestedOrder;
    var i := order[n];
    assert i < |o.entries| by {
      OrderInRange(o, order, n);
    }
    var k := ParentIsMade(fold, listed, o, env, made, order, n);
    assert created[k] in created && created[k] == At(fold, o, made[k]);
    MadeAreNoDeeper(fold, listed, o, env, base, disk, created, made, order, n);
    NestedPlaceIsFree(fold, listed, o, env, base, i);
    NotYetMade(fold, listed, o, base, disk, created, made, i);
  }

  lemma OrderInRange(o: Offer, order: seq<nat>, n: nat)
    requires IsNestedOrder(o, order) && n < |order|
    ensures order[n] < |o.entries|
  {
  }

  lemma PathLength(fold: Fold, listed: set<string>, o: Offer, i: nat)
    requires Approved(fold, listed, o) && i < |o.entries|
    ensures o.entries[i].path != []
  {
    SafeNonEmpty(fold, listed, o, i);
  }

  lemma DepthIsLength(fold: Fold, listed: set<string>, o: Offer, i: nat)
    requires Approved(fold, listed, o) && i < |o.entries|
    ensures |At(fold, o, i)| == |o.entries[i].path|
  {
    hide Approved;
    EveryEntryIsDefined(fold, listed, o, i);
  }

  lemma NestedGrows(fold: Fold, o: Offer, env: Permissions, made: seq<nat>, order: seq<nat>, n: nat)
    requires n < |order| && NestedDone(fold, o, env, made, order, n) && Granted(fold, o, env, order[n])
    ensures NestedDone(fold, o, env, made + [order[n]], order, n + 1)
  {
    hide Granted;
    assert order[..n + 1] == order[..n] + [order[n]];
    assert order[n] in made + [order[n]];
  }

  /** Preparation is complete: every folder entry has its folder. */
  lemma AllFoldersMade(
    fold: Fold, o: Offer, env: Permissions, base: Disk, disk: Disk, created: seq<Path>, made: seq<nat>, order: seq<nat>)
    requires Making(fold, o, base, disk, created, made)
    requires IsNestedOrder(o, order) && NestedDone(fold, o, env, made, order, |order|)
    ensures Elements(created) == FolderDestinations(fold, o)
    ensures NestedReady(fold, o, env)
  {
    hide Granted, LengthOrdered, At;
    assert order[..|order|] == order;
    forall c | c in Elements(created) ensures c in FolderDestinations(fold, o) {
      var k :| 0 <= k < |created| && created[k] == c;
      assert IsFolderEntry(o, made[k]);
    }
    forall i: nat | IsFolderEntry(o, i) ensures At(fold, o, i) in Elements(created) && (!IsRootEntry(o, i) ==> Granted(fold, o, env, i)) {
      if !IsRootEntry(o, i) {
        assert i in order;
        var m :| 0 <= m < |order| && order[m] == i;
        assert order[m] in made && Granted(fold, o, env, order[m]);
      }
      assert i in made;
      var k :| 0 <= k < |made| && made[k] == i;
      assert created[k] in created;
    }
  }

  lemma FolderKindEntry(o: Offer, i: nat)
    requires i < |o.entries|
    ensures IsFolderEntry(o, i) <==> o.entries[i].kind == FolderKind
  {
  }

  /** The receiving side of an approval: the disk and the folders made for this offer. */
  class Acceptance {
    const fold: Fold
    const offer: Offer
    var disk: Disk
    var createdDirectories: seq<Path>
    ghost var made: seq<nat>

    constructor (fold: Fold, offer: Offer, disk: Disk)
      ensures this.fold == fold && this.offer == offer && this.disk == disk && createdDirectories == [] && made == []
    {
      this.fold, this.offer, this.disk := fold, offer, disk;
      createdDirectories, made := [], [];
    }

    ghost predicate Made(base: Disk)
      reads this
    {
      Making(fold, offer, base, disk, createdDirectories, made)
    }

    method RemoveCreatedDirectories()
      modifies this
      ensures disk == RemoveCreated(old(disk), old(createdDirectories))
      ensures createdDirectories == [] && made == []
    {
      disk := RemoveAllCreated(disk, createdDirectories);
      createdDirectories, made := [], [];
    }

    /** Leftovers of an earlier session are reported; an empty staging folder is removed.
        One that is a link, a reparse point or unreadable is not inspectable. */
    method HasStaleStaging(inspectable: bool) returns (refused: bool, stale: bool)
      modifies this`disk
      ensures refused <==> StagingPath(fold) in old(disk) && (old(disk)[StagingPath(fold)].File? || !inspectable)
      ensures stale <==> !refused && exists p | p in old(disk) :: StagingPath(fold) < p && StagingPath(fold) in old(disk)
      ensures disk == if refused || stale then old(disk) else old(disk) - {StagingPath(fold)}
    {
      var staging := StagingPath(fold);
      if staging !in disk {
        return false, false;
      }
      if disk[staging].File? || !inspectable {
        return true, false;
      }
      stale := !IsEmpty(disk, staging);
      if !stale {
        disk := Remove(disk, staging);
      }
      refused := false;
    }

    /** The first entry whose key is the root's. */
    method FindRootEntry(root: string) returns (found: bool, index: nat)
      ensures found ==> index < |offer.entries| && Key(fold, offer.entries[index].path) == Key(fold, [root])
      ensures !found ==> forall i | 0 <= i < |offer.entries| :: Key(fold, offer.entries[i].path) != Key(fold, [root])
    {
      for i := 0 to |offer.entries|
        invariant forall j | 0 <= j < i :: Key(fold, offer.entries[j].path) != Key(fold, [root])
      {
        if Key(fold, offer.entries[i].path) == Key(fold, [root]) {
          return true, i;
        }
      }
      return false, 0;
    }

    /** Length check, then absence of the final path, then the system's leave. */
    method CheckRoot(env: Permissions, i: nat) returns (ready: bool)
      requires i < |offer.entries|
      ensures ready <==> RootReady(fold, offer, env, disk, i)
    {
      var path := offer.entries[i].path;
      if !Defined(fold, offer, path) || !env.fits(IncomingPath(fold, offer, path)) {
        return false;
      }
      if At(fold, offer, i) in disk {
        return false;
      }
      ready := offer.entries[i].kind == FolderKind ==> env.mkdir(At(fold, offer, i));
    }

    method MakeFolder(p: Path)
      modifies this`disk, this`createdDirectories
      ensures disk == old(disk)[p := Folder] && createdDirectories == old(createdDirectories) + [p]
    {
      disk := disk[p := Folder];
      createdDirectories := createdDirectories + [p];
    }

    /** A root that is ready takes its place: a folder is made, a file comes later. */
    method TakeRoot(env: Permissions, r: nat, i: nat, ghost listed: set<string>, ghost base: Disk)
      requires Approved(fold, listed, offer) && Made(base)
      requires r < |Roots(offer.entries)| && RootsDone(fold, offer, env, base, made, r) && i < |offer.entries| && Key(fold, offer.entries[i].path) == Key(fold, [Roots(offer.entries)[r]])
      requires RootReady(fold, offer, env, base, i)
      modifies this
      ensures Made(base) && RootsDone(fold, offer, env, base, made, r + 1)
    {
      hide Approved, At, RootReady, LengthOrdered, Granted, Making, RootsDone, IsFolderEntry, IsRootEntry;
      RootIndexIsUnique(fold, listed, offer, r, i);
      RootNotYetMade(fold, listed, offer, env, base, disk, createdDirectories, made, r, i);
      RootsDoneGrows(fold, listed, offer, env, base, made, r, i, if IsFolderEntry(offer, i) then made + [i] else made);
      FolderKindEntry(offer, i);
      if offer.entries[i].kind == FolderKind {
        RootReadyIsFree(fold, offer, env, base, i);
        MadeOneMore(fold, listed, offer, base, disk, createdDirectories, made, i);
        MakeFolder(At(fold, offer, i));
        made := made + [i];
      }
    }

    method CreateRoots(env: Permissions, ghost listed: set<string>) returns (ok: bool)
      requires Approved(fold, listed, offer) && createdDirectories == [] && made == []
      modifies this
      ensures Made(old(disk))
      ensures ok <==> RootsReady(fold, offer, env, old(disk))
      ensures ok ==> forall i: nat :: i in made <==> IsFolderEntry(offer, i) && IsRootEntry(offer, i)
    {
      hide Approved, At, RootReady, LengthOrdered, Granted, Making, RootsDone;
      ghost var base := disk;
      var roots := Roots(offer.entries);
      NothingMade(fold, offer, env, disk);
      for r := 0 to |roots|
        invariant Made(base) && RootsDone(fold, offer, env, base, made, r)
      {
        var found, i := FindRootEntry(roots[r]);
        ghost var j := RootHasEntry(offer.entries, r);
        assert Key(fold, offer.entries[j].path) == Key(fold, [roots[r]]);
        if !found {
          assert false;
          return false;
        }
        RootIndexIsUnique(fold, listed, offer, r, i);
        var ready := CheckRoot(env, i);
        RootNotYetMade(fold, listed, offer, env, base, disk, createdDirectories, made, r, i);
        if !ready {
          RootRefused(fold, offer, env, base, i);
          return false;
        }
        TakeRoot(env, r, i, listed, base);
      }
      AllRootsDone(fold, offer, env, base, made);
      ok := true;
    }

    method CreateNested(env: Permissions, ghost listed: set<string>, ghost base: Disk) returns (ok: bool)
      requires Approved(fold, listed, offer) && IsTree(base) && RootsReady(fold, offer, env, base)
      requires Made(base) && forall i: nat :: i in made <==> IsFolderEntry(offer, i) && IsRootEntry(offer, i)
      modifies this
      ensures Made(base)
      ensures ok <==> NestedReady(fold, offer, env)
      ensures ok ==> Elements(createdDirectories) == FolderDestinations(fold, offer)
    {
      hide Approved, At, Granted, LengthOrdered, RootsReady, IsTree, CanMkdir, SortByDepth, NestedFolders, NestedDone, Making;
      var order := SortByDepth(offer.entries, NestedFolders(offer.entries, |offer.entries|));
      assert IsNestedOrder(offer, order);
      OnlyRootsMade(fold, offer, env, made, order);
      for n := 0 to |order|
        invariant Made(base) && NestedDone(fold, offer, env, made, order, n)
      {
        var i := order[n];
        assert i in order && IsFolderEntry(offer, i) && !IsRootEntry(offer, i);
        NestedFolderCanBeMade(fold, listed, offer, env, base, disk, createdDirectories, made, order, n);
        var granted := CheckNested(env, i);
        if !granted {
          NestedRefused(fold, offer, env, i);
          return false;
        }
        NestedGrows(fold, offer, env, made, order, n);
        MadeOneMore(fold, listed, offer, base, disk, createdDirectories, made, i);
        MakeFolder(At(fold, offer, i));
        made := made + [i];
      }
      AllFoldersMade(fold, offer, env, base, disk, createdDirectories, made, order);
      ok := true;
    }

    /** Length check and `os.Mkdir`, whose disk conditions hold by the caller's proof. */
    method CheckNested(env: Permissions, i: nat) returns (granted: bool)
      requires IsFolderEntry(offer, i) && CanMkdir(disk, At(fold, offer, i))
      ensures granted <==> Granted(fold, offer, env, i)
    {
      var path := offer.entries[i].path;
      if !Defined(fold, offer, path) || !env.fits(IncomingPath(fold, offer, path)) {
        return false;
      }
      granted := CanMkdir(disk, At(fold, offer, i)) && env.mkdir(At(fold, offer, i));
    }

    /** `os.MkdirAll` on the staging folder, directly beneath the destination. */
    method CreateStaging(env: Permissions) returns (ok: bool)
      modifies this`disk
      ensures ok <==> StagingReady(fold, offer, env, old(disk))
      ensures disk == if ok then old(disk)[StagingPath(fold) := Folder] else old(disk)
    {
      var staging := StagingPath(fold);
      if !env.staging || (staging in disk && disk[staging] != Folder) {
        return false;
      }
      disk := disk[staging := Folder];
      ok := true;
    }

    /** Every folder, then the staging area. */
    method CreateAll(env: Permissions, ghost listed: set<string>) returns (ok: bool)
      requires Approved(fold, listed, offer) && IsTree(disk) && createdDirectories == [] && made == []
      modifies this
      ensures ok <==> RootsReady(fold, offer, env, old(disk)) && NestedReady(fold, offer, env) && StagingReady(fold, offer, env, old(disk))
      ensures !ok ==> Made(old(disk))
      ensures ok ==> LengthOrdered(createdDirectories) && Elements(createdDirectories) == FolderDestinations(fold, offer)
      ensures ok ==> disk == old(disk) + Folders(Elements(createdDirectories)) + Folders({StagingPath(fold)})
      ensures ok ==> forall c | c in createdDirectories :: c !in old(disk)
    {
      hide Approved, LengthOrdered, IsTree, FolderDestinations, RootsReady, NestedReady, At;
      ghost var base := disk;
      ok := CreateRoots(env, listed);
      if ok {
        ok := CreateNested(env, listed, base);
      }
      if ok {
        ghost var before := disk;
        ok := CreateStaging(env);
        assert StagingReady(fold, offer, env, before) <==> StagingReady(fold, offer, env, base) by {
          StagingUnaffected(fold, offer, env, base, before, createdDirectories);
        }
      }
    }

    /** Accepting an offer: every folder and the staging area, or nothing. It succeeds
        exactly when the destination and every single one of them can be had. */
    method PrepareIncoming(env: Permissions, staleStaging: bool, ghost listed: set<string>) returns (ok: bool)
      requires Approved(fold, listed, offer) && IsTree(disk) && createdDirectories == [] && made == []
      modifies this
      ensures ok <==> !staleStaging && CanPrepare(fold, offer, env, old(disk))
      ensures !ok ==> disk == old(disk) && createdDirectories == []
      ensures ok ==> disk == old(disk) + Folders(FolderDestinations(fold, offer)) + Folders({StagingPath(fold)})
      ensures ok ==> Elements(createdDirectories) == FolderDestinations(fold, offer) && ParentsFirst(createdDirectories)
      ensures ok ==> forall c | c in createdDirectories :: c !in old(disk)
    {
      hide Approved, LengthOrdered, IsTree, FolderDestinations, RootsReady, NestedReady, StagingReady, At, Making;
      if staleStaging {
        return false;
      }
      if !env.destination {
        return false;
      }
      if env.available.Some? && TotalSize(offer.entries) > env.available.value {
        return false;
      }
      ghost var base := disk;
      ok := CreateAll(env, listed);
      if !ok {
        MakingIsLayered(fold, offer, base, disk, createdDirectories, made);
        RemovalUndoesCreation(disk, base, createdDirectories);
        RemoveCreatedDirectories();
        return false;
      }
      LengthOrderedIsParentsFirst(createdDirectories);
    }
  }

  lemma NestedRefused(fold: Fold, o: Offer, env: Permissions, i: nat)
    requires IsFolderEntry(o, i) && !IsRootEntry(o, i) && !Granted(fold, o, env, i)
    ensures !NestedReady(fold, o, env)
  {
  }

  lemma StagingUnaffected(fold: Fold, o: Offer, env: Permissions, base: Disk, disk: Disk, created: seq<Path>)
    requires disk == base + Folders(Elements(created)) && forall k | 0 <= k < |created| :: created[k] !in base
    ensures StagingReady(fold, o, env, disk) <==> StagingReady(fold, o, env, base)
  {
  }
}
