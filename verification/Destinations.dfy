/** Where each approved manifest entry goes: injective and confined. */
module Destinations {
  import opened Names
  import opened Manifest
  import opened Validation
  import opened ConflictNames

  /** An offer as approved: its entries and the final name of each root, by root key. */
  datatype Offer = Offer(id: string, entries: seq<Entry>, finalNames: map<string, string>)

  /** What manifest validation and path resolution leave true of an offer, where
      `listed` are the keys of the names found in the destination. */
  ghost predicate Approved(fold: Fold, listed: set<string>, o: Offer) {
    && SafePaths(o.entries)
    && UniqueKeys(fold, o.entries)
    && AncestorsPresent(fold, o.entries)
    && Resolved(fold, listed, Roots(o.entries), o.finalNames)
  }

  ghost predicate SafePaths(entries: seq<Entry>) {
    forall i | 0 <= i < |entries| :: SafePath(entries[i].path)
  }

  predicate SafePath(path: Path) {
    path != [] && forall c | c in path :: SafeComponent(c)
  }

  predicate Defined(fold: Fold, o: Offer, path: Path) {
    path != [] && fold(path[0]) in o.finalNames
  }

  /** The final path relative to the destination, as written on disk. */
  function IncomingPath(fold: Fold, o: Offer, path: Path): Path
    requires Defined(fold, o, path)
  {
    [o.finalNames[fold(path[0])]] + path[1..]
  }

  /** The folded final path, which depends on the entry's key alone. */
  function Destination(fold: Fold, o: Offer, path: Path): (p: Path)
    requires Defined(fold, o, path)
    ensures |p| == |path|
    ensures p == [fold(o.finalNames[fold(path[0])])] + Key(fold, path)[1..]
  {
    assert Key(fold, path[1..]) == Key(fold, path)[1..];
    Key(fold, IncomingPath(fold, o, path))
  }

  // ---- the stages before ----

  lemma {:induction false} RootIsListed(entries: seq<Entry>, i: nat)
    requires i < |entries| && |entries[i].path| == 1
    ensures entries[i].path[0] in Roots(entries)
    decreases |entries|
  {
    if i < |entries| - 1 {
      RootIsListed(entries[..|entries| - 1], i);
    }
  }

  lemma {:induction false} RootHasEntry(entries: seq<Entry>, k: nat) returns (i: nat)
    requires k < |Roots(entries)|
    ensures i < |entries| && entries[i].path == [Roots(entries)[k]]
    ensures i >= |entries| - 1 || (k < |Roots(entries[..|entries| - 1])| && Roots(entries)[k] == Roots(entries[..|entries| - 1])[k])
    ensures i == |entries| - 1 ==> k == |Roots(entries)| - 1 && k == |Roots(entries[..|entries| - 1])|
    decreases |entries|
  {
    var front := entries[..|entries| - 1];
    if k < |Roots(front)| {
      i := RootHasEntry(front, k);
    } else {
      i := |entries| - 1;
    }
  }

  /** Validation makes the roots' keys distinct, as the resolver requires. */
  lemma {:induction false} RootKeysAreDistinct(fold: Fold, entries: seq<Entry>)
    requires UniqueKeys(fold, entries)
    ensures DistinctKeys(fold, Roots(entries))
    decreases |entries|
  {
    if entries != [] {
      var front, last := entries[..|entries| - 1], entries[|entries| - 1];
      assert UniqueKeys(fold, front);
      RootKeysAreDistinct(fold, front);
      var roots := Roots(entries);
      forall i, j | 0 <= i < j < |roots| ensures fold(roots[i]) != fold(roots[j]) {
        if j == |Roots(front)| {
          var a := RootHasEntry(front, i);
          assert Key(fold, entries[a].path)[0] == fold(roots[i]) && Key(fold, last.path)[0] == fold(roots[j]);
          assert Key(fold, entries[a].path) != Key(fold, last.path);
        }
      }
    }
  }

  lemma ValidPathIsSafe(path: Path)
    requires ValidManifestPath(path)
    ensures SafePath(path)
  {
    hide Utf16Length, Utf8Length, WindowsReservedBase;
    forall c | c in path ensures SafeComponent(c) {
      var k :| 0 <= k < |path| && path[k] == c;
      assert ValidComponent(path[k]);
      assert forall j | 0 <= j < |c| :: !ForbiddenCharacter(c[j]);
    }
  }

  /** The pipeline: a validated manifest with resolved root names is approved. */
  lemma ValidatedAndResolvedIsApproved(fold: Fold, h: Header, listed: set<string>, o: Offer)
    requires ValidReceived(fold, h, o.entries)
    requires Resolved(fold, listed, Roots(o.entries), o.finalNames)
    ensures Approved(fold, listed, o)
  {
    hide ValidManifestPath, SafePath;
    forall i | 0 <= i < |o.entries| ensures SafePath(o.entries[i].path) {
      ValidPathIsSafe(o.entries[i].path);
    }
  }

  // ---- lexical cleaning, as path joining does it ----

  function Clean(done: Path, rest: Path): Path
    decreases |rest|
  {
    if rest == [] then done
    else if rest[0] == "" || rest[0] == "." then Clean(done, rest[1..])
    else if rest[0] == ".." then Clean(if done == [] then [] else done[..|done| - 1], rest[1..])
    else Clean(done + [rest[0]], rest[1..])
  }

  lemma {:induction false} SafeJoinIsClean(base: Path, path: Path)
    requires forall c | c in path :: SafeComponent(c)
    ensures Clean(base, path) == base + path
    decreases |path|
  {
    if path == [] {
      assert base + path == base;
    } else {
      assert SafeComponent(path[0]);
      SafeJoinIsClean(base + [path[0]], path[1..]);
      assert (base + [path[0]]) + path[1..] == base + path;
    }
  }

  // ---- the destinations ----

  lemma EveryEntryIsDefined(fold: Fold, listed: set<string>, o: Offer, i: nat)
    requires Approved(fold, listed, o) && i < |o.entries|
    ensures Defined(fold, o, o.entries[i].path)
  {
    hide Approved, SafePath, Resolved, Roots;
    var path := o.entries[i].path;
    assert SafePath(path) && path != [] by {
      SafeNonEmpty(fold, listed, o, i);
    }
    var root := RootOf(fold, listed, o, i);
    RootIsListed(o.entries, root);
    RootIsDefined(fold, listed, o, o.entries[root].path[0]);
  }

  lemma SafeNonEmpty(fold: Fold, listed: set<string>, o: Offer, i: nat)
    requires Approved(fold, listed, o) && i < |o.entries|
    ensures SafePath(o.entries[i].path) && o.entries[i].path != []
  {
  }

  lemma RootIsDefined(fold: Fold, listed: set<string>, o: Offer, root: string)
    requires Approved(fold, listed, o) && root in Roots(o.entries)
    ensures fold(root) in o.finalNames
  {
  }

  /** The entry that is the root of another, up to folding. */
  lemma RootOf(fold: Fold, listed: set<string>, o: Offer, i: nat) returns (r: nat)
    requires Approved(fold, listed, o) && i < |o.entries|
    ensures r < |o.entries| && |o.entries[r].path| == 1
    ensures o.entries[i].path != [] && fold(o.entries[r].path[0]) == fold(o.entries[i].path[0])
  {
    hide SafeComponent, Resolved, Roots, UniqueKeys;
    var path := o.entries[i].path;
    assert SafePath(path);
    if |path| == 1 {
      r := i;
    } else {
      assert AncestorsAreIn(fold, o.entries, path);
      assert FolderAt(fold, o.entries, path[..1]);
      r :| 0 <= r < |o.entries| && Key(fold, o.entries[r].path) == Key(fold, path[..1]);
      assert Key(fold, o.entries[r].path)[0] == Key(fold, path[..1])[0];
    }
  }

  lemma DestinationsAreInjective(fold: Fold, listed: set<string>, o: Offer, i: nat, j: nat)
    requires Approved(fold, listed, o) && i < |o.entries| && j < |o.entries| && i != j
    ensures Defined(fold, o, o.entries[i].path) && Defined(fold, o, o.entries[j].path)
    ensures Destination(fold, o, o.entries[i].path) != Destination(fold, o, o.entries[j].path)
  {
    hide SafePath, AncestorsPresent, Roots, SafeComponent;
    EveryEntryIsDefined(fold, listed, o, i);
    EveryEntryIsDefined(fold, listed, o, j);
    var a, b := o.entries[i].path, o.entries[j].path;
    var p, q := Destination(fold, o, a), Destination(fold, o, b);
    assert Key(fold, a) != Key(fold, b);
    if fold(a[0]) == fold(b[0]) {
      assert Key(fold, a) == [fold(a[0])] + Key(fold, a)[1..];
      assert Key(fold, b) == [fold(b[0])] + Key(fold, b)[1..];
      assert p[1..] == Key(fold, a)[1..] && q[1..] == Key(fold, b)[1..];
    } else {
      assert p[0] != q[0];
    }
  }

  /** Every approved entry has a final path strictly beneath the destination, wherever
      that is; the path is already clean; its top name was free; and no two entries
      share a folded path. */
  lemma InjectiveConfinedDestinations(fold: Fold, listed: set<string>, o: Offer, i: nat, base: Path)
    requires Approved(fold, listed, o) && i < |o.entries|
    ensures Defined(fold, o, o.entries[i].path)
    ensures Clean(base, IncomingPath(fold, o, o.entries[i].path)) == base + IncomingPath(fold, o, o.entries[i].path)
    ensures base < Clean(base, IncomingPath(fold, o, o.entries[i].path))
    ensures Destination(fold, o, o.entries[i].path)[0] !in listed
    ensures forall j | 0 <= j < |o.entries| && j != i ::
              Defined(fold, o, o.entries[j].path)
              && Destination(fold, o, o.entries[i].path) != Destination(fold, o, o.entries[j].path)
  {
    hide UniqueKeys, AncestorsPresent, Roots, SafeComponent;
    EveryEntryIsDefined(fold, listed, o, i);
    var path := o.entries[i].path;
    var final := IncomingPath(fold, o, path);
    assert SafePath(path);
    assert forall c | c in final :: SafeComponent(c);
    SafeJoinIsClean(base, final);
    forall j | 0 <= j < |o.entries| && j != i
      ensures Defined(fold, o, o.entries[j].path)
      ensures Destination(fold, o, path) != Destination(fold, o, o.entries[j].path)
    {
      DestinationsAreInjective(fold, listed, o, i, j);
    }
  }
}
