/** The part of the disk an offer can reach: what lies beneath the chosen
    destination, as a map from folded relative paths. The empty path is the
    destination itself. No other program writes here. */
module Disk {
  import opened Names

  newtype Byte = x: int | 0 <= x < 256

  datatype DiskNode = Folder | File(content: seq<Byte>)

  type Disk = map<Path, DiskNode>

  predicate HasParent(disk: Disk, p: Path) {
    p != [] ==> p[..|p| - 1] in disk && disk[p[..|p| - 1]] == Folder
  }

  /** Every path's parent is a folder. */
  ghost predicate IsTree(disk: Disk) {
    && [] in disk && disk[[]] == Folder
    && forall p {:trigger HasParent(disk, p)} | p in disk :: HasParent(disk, p)
  }

  function Folders(paths: set<Path>): (d: Disk)
    ensures d.Keys == paths && forall p | p in d :: d[p] == Folder
  {
    map p | p in paths :: Folder
  }

  function Elements(s: seq<Path>): (r: set<Path>)
    ensures forall x :: x in r <==> x in s
  {
    set x | x in s
  }

  // ---- operations ----

  /** What makes `os.Mkdir` possible: an existing parent folder and a free target. */
  predicate CanMkdir(disk: Disk, p: Path) {
    p != [] && p !in disk && p[..|p| - 1] in disk && disk[p[..|p| - 1]] == Folder
  }

  predicate IsEmpty(disk: Disk, p: Path) {
    forall q | q in disk :: !(p < q)
  }

  /** `os.Remove`: takes a file or an empty folder, and leaves all else alone. */
  function Remove(disk: Disk, p: Path): Disk {
    if p in disk && (disk[p].File? || IsEmpty(disk, p)) then disk - {p} else disk
  }

  /** Removal in reverse creation order. */
  function RemoveCreated(disk: Disk, created: seq<Path>): Disk
    decreases |created|
  {
    if created == [] then disk
    else RemoveCreated(Remove(disk, created[|created| - 1]), created[..|created| - 1])
  }

  /** The reverse loop over the created folders; only empty ones go. */
  method RemoveAllCreated(disk: Disk, created: seq<Path>) returns (left: Disk)
    ensures left == RemoveCreated(disk, created)
  {
    hide Remove;
    left := disk;
    var index := |created|;
    assert created[..index] == created;
    while index > 0
      invariant 0 <= index <= |created|
      invariant RemoveCreated(left, created[..index]) == RemoveCreated(disk, created)
    {
      index := index - 1;
      assert created[..index + 1][..index] == created[..index];
      left := Remove(left, created[index]);
    }
  }

  // ---- ancestors ----

  lemma PrefixTransitive(a: Path, b: Path, c: Path)
    requires a <= b && b <= c
    ensures a <= c
  {
    assert b == c[..|b|];
    assert a == b[..|a|] == c[..|a|];
  }

  lemma {:induction false} TreeHasAncestors(disk: Disk, p: Path, q: Path)
    requires IsTree(disk) && q in disk && p < q
    ensures p in disk && disk[p] == Folder
    decreases |q|
  {
    var parent := q[..|q| - 1];
    assert HasParent(disk, q);
    if p != parent {
      assert p <= parent by {
        assert p == q[..|p|] == parent[..|p|];
      }
      TreeHasAncestors(disk, p, parent);
    }
  }

  /** Nothing old lies beneath a path that was free. */
  lemma NothingOldBelow(base: Disk, created: seq<Path>)
    requires IsTree(base) && forall k | 0 <= k < |created| :: created[k] !in base
    ensures forall b, c | b in base && c in created :: !(c < b)
  {
    hide IsTree;
    forall b, c | b in base && c in created ensures !(c < b) {
      if c < b {
        TreeHasAncestors(base, c, b);
      }
    }
  }

  // ---- what removal in reverse creation order leaves ----

  /** No folder of `created` has an earlier one, or itself again, beneath it. */
  ghost predicate ParentsFirst(created: seq<Path>) {
    forall i, j | 0 <= i < j < |created| :: !(created[j] <= created[i])
  }

  ghost predicate Holds(published: Disk, folder: Path) {
    exists p | p in published :: folder < p
  }

  /** `disk` is `base`, the published files, the folders in `kept` and those in
      `created`, without overlap, and each kept folder holds a published file. */
  ghost predicate Layered(disk: Disk, base: Disk, published: Disk, kept: set<Path>, created: seq<Path>) {
    && disk == base + published + Folders(kept) + Folders(Elements(created))
    && base.Keys !! published.Keys
    && base.Keys !! kept + Elements(created)
    && published.Keys !! kept + Elements(created)
    && kept !! Elements(created)
    && (forall k | k in kept :: Holds(published, k))
    && (forall b, c | b in base && c in created :: !(c < b))
    && ParentsFirst(created)
  }

  lemma HoldsUpwards(published: Disk, c: Path, q: Path)
    ensures c <= q && Holds(published, q) ==> Holds(published, c)
  {
    if c <= q && Holds(published, q) {
      var p :| p in published && q < p;
      PrefixTransitive(c, q, p);
    }
  }

  lemma LastCreatedIsEmptyUnlessUsed(disk: Disk, base: Disk, published: Disk, kept: set<Path>, created: seq<Path>)
    requires Layered(disk, base, published, kept, created) && created != []
    ensures IsEmpty(disk, created[|created| - 1]) <==> !Holds(published, created[|created| - 1])
  {
    var c := created[|created| - 1];
    if Holds(published, c) {
      var p :| p in published && c < p;
      assert p in disk;
    } else {
      forall q | q in disk ensures !(c < q) {
        HoldsUpwards(published, c, q);
        if q in Elements(created) {
          var i :| 0 <= i < |created| && created[i] == q;
          assert i < |created| - 1 ==> !(c <= q);
        }
      }
    }
  }

  lemma FrontParentsFirst(created: seq<Path>)
    requires ParentsFirst(created) && created != []
    ensures ParentsFirst(created[..|created| - 1])
    ensures created[|created| - 1] !in created[..|created| - 1]
    ensures Elements(created) == Elements(created[..|created| - 1]) + {created[|created| - 1]}
  {
    var c, front := created[|created| - 1], created[..|created| - 1];
    forall i, j | 0 <= i < j < |front| ensures !(front[j] <= front[i]) {
      assert !(created[j] <= created[i]);
    }
    forall i | 0 <= i < |front| ensures front[i] != c {
      assert !(c <= created[i]);
    }
    assert created == front + [c];
  }

  lemma FolderOnTop(below: Disk, kept: set<Path>, front: set<Path>, c: Path)
    requires c !in below && c !in kept && c !in front
    ensures (below + Folders(kept) + Folders(front + {c})) - {c} == below + Folders(kept) + Folders(front)
    ensures below + Folders(kept) + Folders(front + {c}) == below + Folders(kept + {c}) + Folders(front)
  {
  }

  lemma RemoveLast(disk: Disk, base: Disk, published: Disk, kept: set<Path>, created: seq<Path>)
    requires Layered(disk, base, published, kept, created) && created != []
    ensures var c := created[|created| - 1];
            Layered(Remove(disk, c), base, published,
                    if Holds(published, c) then kept + {c} else kept, created[..|created| - 1])
  {
    hide ParentsFirst, Holds, IsEmpty;
    var c, front := created[|created| - 1], created[..|created| - 1];
    LastCreatedIsEmptyUnlessUsed(disk, base, published, kept, created);
    FrontParentsFirst(created);
    var below := base + published;
    FolderOnTop(below, kept, Elements(front), c);
    assert disk == below + Folders(kept) + Folders(Elements(front) + {c});
    assert c in disk && disk[c] == Folder;
  }

  lemma {:induction false} RemovalKeepsExactlyTheUsed(disk: Disk, base: Disk, published: Disk, kept: set<Path>, created: seq<Path>)
    requires Layered(disk, base, published, kept, created)
    ensures RemoveCreated(disk, created) == base + published + Folders(kept + set c | c in created && Holds(published, c))
    decreases |created|
  {
    hide Layered, Remove, ParentsFirst;
    if created == [] {
      NothingCreated(disk, base, published, kept);
      assert kept + (set c | c in created && Holds(published, c)) == kept;
    } else {
      var c, front := created[|created| - 1], created[..|created| - 1];
      RemoveLast(disk, base, published, kept, created);
      var kept' := if Holds(published, c) then kept + {c} else kept;
      RemovalKeepsExactlyTheUsed(Remove(disk, c), base, published, kept', front);
      assert created == front + [c];
      assert kept' + (set d | d in front && Holds(published, d)) == kept + set d | d in created && Holds(published, d);
    }
  }

  lemma NothingCreated(disk: Disk, base: Disk, published: Disk, kept: set<Path>)
    requires Layered(disk, base, published, kept, [])
    ensures disk == base + published + Folders(kept)
  {
    assert Elements([]) == {};
    assert Folders({}) == map[];
  }

  /** Rollback: with nothing published, removing what was created restores the disk. */
  lemma RemovalUndoesCreation(disk: Disk, base: Disk, created: seq<Path>)
    requires Layered(disk, base, map[], {}, created)
    ensures RemoveCreated(disk, created) == base
  {
    RemovalKeepsExactlyTheUsed(disk, base, map[], {}, created);
    assert {} + (set c | c in created && Holds(map[], c)) == {};
  }
}
