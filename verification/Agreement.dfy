/** What the sender builds is what the receiver accepts, except when a selected root
    was itself omitted. */
module Agreement {
  import opened Names
  import opened Manifest
  import opened Validation

  function HeaderOf(m: Manifest): Header {
    Header(|m.roots|, m.fileCount, m.folderCount, m.totalBytes)
  }

  /** How many selected roots the walk skipped and disclosed as omissions. */
  function OmittedRoots(selection: Selection): nat {
    match selection
    case Done => 0
    case Missing(others) => OmittedRoots(others)
    case Root(_, tree, others) => (if tree.Omitted? then 1 else 0) + OmittedRoots(others)
  }

  // ---- regions of a manifest ----

  predicate SenderEntry(e: Entry) { EntryAcceptable(e) && (e.digest == "" || IsLowerHexDigest(e.digest)) }

  ghost predicate FolderEntry(es: seq<Entry>, path: Path) {
    exists j | 0 <= j < |es| :: es[j].path == path && es[j].kind == FolderKind
  }

  /** Every ancestor of `path` with at least `depth` components is a folder of `es`. */
  ghost predicate ClosedAt(es: seq<Entry>, depth: nat, path: Path) {
    forall k | depth <= k < |path| :: FolderEntry(es, path[..k])
  }

  ghost predicate Region(fold: Fold, depth: nat, es: seq<Entry>) {
    && (forall i | 0 <= i < |es| :: SenderEntry(es[i]))
    && UniqueKeys(fold, es)
    && forall i {:trigger ClosedAt(es, depth, es[i].path)} | 0 <= i < |es| :: ClosedAt(es, depth, es[i].path)
  }

  predicate Beneath(path: Path, q: Path) { |path| <= |q| && q[..|path|] == path }

  ghost predicate DisjointKeys(fold: Fold, a: seq<Entry>, b: seq<Entry>) {
    forall i, j | 0 <= i < |a| && 0 <= j < |b| :: Key(fold, a[i].path) != Key(fold, b[j].path)
  }

  lemma ClosedAtGrows(a: seq<Entry>, b: seq<Entry>, depth: nat, path: Path)
    ensures ClosedAt(a, depth, path) ==> ClosedAt(a + b, depth, path) && ClosedAt(b + a, depth, path)
  {
    if ClosedAt(a, depth, path) {
      forall k | depth <= k < |path|
        ensures FolderEntry(a + b, path[..k]) && FolderEntry(b + a, path[..k])
      {
        var j :| 0 <= j < |a| && a[j].path == path[..k] && a[j].kind == FolderKind;
        assert (a + b)[j] == a[j] && (b + a)[|b| + j] == a[j];
      }
    }
  }

  lemma RegionConcat(fold: Fold, depth: nat, a: seq<Entry>, b: seq<Entry>)
    requires Region(fold, depth, a) && Region(fold, depth, b) && DisjointKeys(fold, a, b)
    ensures Region(fold, depth, a + b)
  {
    hide SenderEntry;
    var c := a + b;
    forall i, j | 0 <= i < j < |c| ensures Key(fold, c[i].path) != Key(fold, c[j].path) {
      if i < |a| <= j {
        assert c[i] == a[i] && c[j] == b[j - |a|];
      }
    }
    forall i | 0 <= i < |c| ensures ClosedAt(c, depth, c[i].path) {
      if i < |a| {
        assert ClosedAt(a, depth, a[i].path);
        ClosedAtGrows(a, b, depth, c[i].path);
      } else {
        assert c[i] == b[i - |a|] && ClosedAt(b, depth, b[i - |a|].path);
        ClosedAtGrows(b, a, depth, c[i].path);
      }
    }
  }

  // ---- sums over concatenated regions ----

  lemma FrontOfConcat(a: seq<Entry>, b: seq<Entry>)
    requires b != []
    ensures (a + b)[..|a + b| - 1] == a + b[..|b| - 1] && (a + b)[|a + b| - 1] == b[|b| - 1]
  {
  }

  lemma {:induction false} SizesConcat(a: seq<Entry>, b: seq<Entry>)
    ensures TotalSize(a + b) == TotalSize(a) + TotalSize(b)
    decreases |b|
  {
    if b == [] {
      assert a + b == a;
    } else {
      FrontOfConcat(a, b);
      SizesConcat(a, b[..|b| - 1]);
    }
  }

  lemma {:induction false} CountsConcat(kind: Kind, a: seq<Entry>, b: seq<Entry>)
    ensures CountKind(kind, a + b) == CountKind(kind, a) + CountKind(kind, b)
    decreases |b|
  {
    if b == [] {
      assert a + b == a;
    } else {
      FrontOfConcat(a, b);
      CountsConcat(kind, a, b[..|b| - 1]);
    }
  }

  lemma {:induction false} RootsConcat(a: seq<Entry>, b: seq<Entry>)
    ensures Roots(a + b) == Roots(a) + Roots(b)
    decreases |b|
  {
    if b == [] {
      assert a + b == a;
    } else {
      FrontOfConcat(a, b);
      RootsConcat(a, b[..|b| - 1]);
    }
  }

  lemma SumsConcat(a: seq<Entry>, b: seq<Entry>)
    ensures TotalSize(a + b) == TotalSize(a) + TotalSize(b)
    ensures CountKind(FileKind, a + b) == CountKind(FileKind, a) + CountKind(FileKind, b)
    ensures CountKind(FolderKind, a + b) == CountKind(FolderKind, a) + CountKind(FolderKind, b)
    ensures Roots(a + b) == Roots(a) + Roots(b)
  {
    SizesConcat(a, b);
    CountsConcat(FileKind, a, b);
    CountsConcat(FolderKind, a, b);
    RootsConcat(a, b);
  }

  lemma {:induction false} NoRootsBelow(es: seq<Entry>)
    requires forall i | 0 <= i < |es| :: |es[i].path| > 1
    ensures Roots(es) == []
  {
    if es != [] {
      NoRootsBelow(es[..|es| - 1]);
    }
  }

  // ---- the effect of a walk ----

  ghost predicate Disclosed(m: Manifest) {
    |m.omissions| <= MAX_MANIFEST_OMISSIONS && forall i | 0 <= i < |m.omissions| :: OmissionAcceptable(m.omissions[i])
  }

  /** `m'` is `m` with the entries `es` appended and every counter moved to match. */
  ghost predicate Grew(m: Manifest, m': Manifest, es: seq<Entry>) {
    && m'.entries == m.entries + es
    && |m'.entries| <= MAX_MANIFEST_ENTRIES
    && m'.fileCount == m.fileCount + CountKind(FileKind, es)
    && m'.folderCount == m.folderCount + CountKind(FolderKind, es)
    && m'.totalBytes == m.totalBytes + TotalSize(es)
    && (Disclosed(m) ==> Disclosed(m'))
  }

  lemma GrewTwice(m: Manifest, m1: Manifest, m2: Manifest, a: seq<Entry>, b: seq<Entry>)
    requires Grew(m, m1, a) && Grew(m1, m2, b)
    ensures Grew(m, m2, a + b)
  {
    SumsConcat(a, b);
  }

  lemma GrewNothing(m: Manifest)
    requires |m.entries| <= MAX_MANIFEST_ENTRIES
    ensures Grew(m, m, [])
  {
    assert m.entries + [] == m.entries;
  }

  lemma GrewUnderNewRoots(m: Manifest, roots: seq<string>, m': Manifest, es: seq<Entry>)
    requires Grew(m.(roots := roots), m', es)
    ensures Grew(m, m', es)
  {
  }

  lemma OmissionGrows(m: Manifest, path: Path, reason: OmitReason)
    requires |m.entries| <= MAX_MANIFEST_ENTRIES && ValidManifestPath(path)
    requires AddOmission(m, path, reason).Ok?
    ensures Grew(m, AddOmission(m, path, reason).manifest, [])
  {
    hide ValidManifestPath;
    assert m.entries + [] == m.entries;
  }

  lemma EntryGrows(m: Manifest, m': Manifest, e: Entry)
    requires |m.entries| < MAX_MANIFEST_ENTRIES && m' == m.(entries := m.entries + [e],
      fileCount := m'.fileCount, folderCount := m'.folderCount, totalBytes := m'.totalBytes)
    requires m'.fileCount == m.fileCount + (if e.kind == FileKind then 1 else 0)
    requires m'.folderCount == m.folderCount + (if e.kind == FolderKind then 1 else 0)
    requires m'.totalBytes == m.totalBytes + (if e.kind == FileKind then e.size else 0)
    ensures Grew(m, m', [e])
  {
    assert [e][..0] == [];
  }

  /** The entries one node contributes below its own path. */
  ghost predicate Subtree(fold: Fold, path: Path, node: Node, es: seq<Entry>) {
    && Region(fold, |path|, es)
    && (forall i | 0 <= i < |es| :: Beneath(path, es[i].path))
    && (if node.Omitted? then es == []
        else es != [] && es[0].path == path && forall i | 1 <= i < |es| :: |path| < |es[i].path|)
  }

  /** The entries a folder's listing contributes: strictly below `path`, and under
      names whose keys are not in `seen`. */
  ghost predicate Listing(fold: Fold, path: Path, seen: set<string>, es: seq<Entry>) {
    && Region(fold, |path| + 1, es)
    && forall i | 0 <= i < |es| ::
         |path| < |es[i].path| && Beneath(path, es[i].path) && fold(es[i].path[|path|]) !in seen
  }

  lemma FolderWithListing(fold: Fold, path: Path, es: seq<Entry>)
    requires ValidManifestPath(path)
    requires Listing(fold, path, {}, es)
    ensures Subtree(fold, path, FolderNode(None), [Entry(path, FolderKind, 0, "")] + es)
  {
    hide ValidManifestPath;
    var folder := Entry(path, FolderKind, 0, "");
    var all := [folder] + es;
    forall i, j | 0 <= i < j < |all| ensures Key(fold, all[i].path) != Key(fold, all[j].path) {
      if i == 0 {
        assert |Key(fold, path)| < |Key(fold, es[j - 1].path)|;
      } else {
        assert all[i] == es[i - 1] && all[j] == es[j - 1];
      }
    }
    forall i | 0 <= i < |all| ensures ClosedAt(all, |path|, all[i].path) {
      if i > 0 {
        var e := es[i - 1];
        assert all[i] == e && ClosedAt(es, |path| + 1, e.path);
        ClosedAtGrows(es, [folder], |path| + 1, e.path);
        assert all[0].path == e.path[..|path|];
        assert FolderEntry(all, e.path[..|path|]);
      }
    }
  }

  lemma ListingAppends(fold: Fold, path: Path, name: string, seen: set<string>, node: Node, a: seq<Entry>, b: seq<Entry>)
    requires fold(name) !in seen
    requires Subtree(fold, path + [name], node, a)
    requires Listing(fold, path, seen + {fold(name)}, b)
    ensures Listing(fold, path, seen, a + b)
  {
    hide SenderEntry;
    forall i | 0 <= i < |a|
      ensures |path| < |a[i].path| && Beneath(path, a[i].path) && a[i].path[|path|] == name
    {
      assert Beneath(path + [name], a[i].path);
      assert a[i].path[..|path|] == a[i].path[..|path| + 1][..|path|];
    }
    forall i, j | 0 <= i < |a| && 0 <= j < |b| ensures Key(fold, a[i].path) != Key(fold, b[j].path) {
      assert Key(fold, a[i].path)[|path|] != Key(fold, b[j].path)[|path|];
    }
    RegionConcat(fold, |path| + 1, a, b);
  }

  lemma {:induction false} WalkBuildsSubtree(fold: Fold, m: Manifest, path: Path, node: Node) returns (es: seq<Entry>)
    requires Walk(fold, m, path, node).Ok?
    ensures Grew(m, Walk(fold, m, path, node).manifest, es)
    ensures Walk(fold, m, path, node).manifest.roots == m.roots
    ensures Subtree(fold, path, node, es)
    decreases node
  {
    hide ValidManifestPath, Grew, Disclosed;
    var m' := Walk(fold, m, path, node).manifest;
    match node {
      case Omitted(reason) =>
        es := [];
        OmissionGrows(m, path, reason);
      case FileNode(size, digest) =>
        es := [Entry(path, FileKind, size, digest)];
        EntryGrows(m, m', es[0]);
      case FolderNode(None) =>
        es := [Entry(path, FolderKind, 0, "")];
        EntryGrows(m, AddFolder(m, path), es[0]);
        OmissionGrows(AddFolder(m, path), path, FolderUnreadable);
        GrewTwice(m, AddFolder(m, path), m', es, []);
        FolderWithListing(fold, path, []);
        assert es + [] == es;
      case FolderNode(Some(children)) =>
        var folder := [Entry(path, FolderKind, 0, "")];
        var below := WalkBuildsListing(fold, AddFolder(m, path), path, children, {});
        es := folder + below;
        EntryGrows(m, AddFolder(m, path), folder[0]);
        GrewTwice(m, AddFolder(m, path), m', folder, below);
        FolderWithListing(fold, path, below);
    }
  }

  lemma {:induction false} WalkBuildsListing(fold: Fold, m: Manifest, path: Path, children: Forest, seen: set<string>)
    returns (es: seq<Entry>)
    requires |m.entries| <= MAX_MANIFEST_ENTRIES
    requires WalkChildren(fold, m, path, children, seen).Ok?
    ensures Grew(m, WalkChildren(fold, m, path, children, seen).manifest, es)
    ensures WalkChildren(fold, m, path, children, seen).manifest.roots == m.roots
    ensures Listing(fold, path, seen, es)
    decreases children
  {
    hide ValidManifestPath, Disclosed, SenderEntry;
    match children {
      case Nil =>
        es := [];
        GrewNothing(m);
      case Cons(name, node, rest) =>
        var first := WalkBuildsSubtree(fold, m, path + [name], node);
        var m1 := Walk(fold, m, path + [name], node).manifest;
        var others := WalkBuildsListing(fold, m1, path, rest, seen + {fold(name)});
        es := first + others;
        GrewTwice(m, m1, WalkChildren(fold, m, path, children, seen).manifest, first, others);
        ListingAppends(fold, path, name, seen, node, first, others);
    }
  }

  lemma RootsOfSubtree(fold: Fold, name: string, node: Node, es: seq<Entry>)
    requires Subtree(fold, [name], node, es)
    ensures |Roots(es)| == if node.Omitted? then 0 else 1
    ensures Roots(es) == [] ==> es == []
  {
    if !node.Omitted? {
      assert es == [es[0]] + es[1..];
      assert [es[0]][..0] == [];
      NoRootsBelow(es[1..]);
      SumsConcat([es[0]], es[1..]);
    }
  }

  lemma EmptyListing(fold: Fold, seen: set<string>)
    ensures Listing(fold, [], seen, [])
  {
  }

  lemma {:induction false} SelectionBuildsListing(fold: Fold, m: Manifest, selection: Selection, seen: set<string>)
    returns (es: seq<Entry>)
    requires |m.entries| <= MAX_MANIFEST_ENTRIES
    requires WalkSelection(fold, m, selection, seen).Ok?
    ensures Grew(m, WalkSelection(fold, m, selection, seen).manifest, es)
    ensures Listing(fold, [], seen, es) && (Roots(es) == [] ==> es == [])
    ensures |WalkSelection(fold, m, selection, seen).manifest.roots| == |m.roots| + |Roots(es)| + OmittedRoots(selection)
    decreases selection
  {
    hide ValidManifestPath, Disclosed, SenderEntry, Subtree, Region;
    match selection {
      case Done =>
        es := [];
        GrewNothing(m);
        EmptyListing(fold, seen);
      case Missing(_) =>
        es := [];
      case Root(name, tree, others) =>
        var rooted := m.(roots := m.roots + [name]);
        var first := WalkBuildsSubtree(fold, rooted, [name], tree);
        var m1 := Walk(fold, rooted, [name], tree).manifest;
        var later := SelectionBuildsListing(fold, m1, others, seen + {fold(name)});
        es := first + later;
        var m' := WalkSelection(fold, m, selection, seen).manifest;
        GrewTwice(rooted, m1, m', first, later);
        GrewUnderNewRoots(m, rooted.roots, m', es);
        assert [] + [name] == [name];
        ListingAppends(fold, [], name, seen, tree, first, later);
        RootsOfSubtree(fold, name, tree, first);
        SumsConcat(first, later);
    }
  }

  lemma ListingIsReceivable(fold: Fold, es: seq<Entry>)
    requires Listing(fold, [], {}, es)
    ensures PathsValid(es) && UniqueKeys(fold, es) && AncestorsPresent(fold, es)
    ensures StoredAll(es) == es
  {
    hide ValidManifestPath;
    forall i | 0 <= i < |es| ensures AncestorsAreIn(fold, es, es[i].path) {
      assert ClosedAt(es, 1, es[i].path);
      forall k | 1 <= k < |es[i].path| ensures FolderAt(fold, es, es[i].path[..k]) {
        assert FolderEntry(es, es[i].path[..k]);
      }
    }
    forall i | 0 <= i < |es| ensures StoredAll(es)[i] == es[i] {
      assert SenderEntry(es[i]);
      assert LowerAscii(es[i].digest) == es[i].digest;
    }
  }

  lemma {:induction false} CountsAddUp(es: seq<Entry>)
    ensures CountKind(FileKind, es) + CountKind(FolderKind, es) == |es|
    ensures |Roots(es)| <= |es|
  {
    if es != [] {
      CountsAddUp(es[..|es| - 1]);
    }
  }

  lemma CountsMatchHeader(m: Manifest)
    requires m.entries != [] && Grew(EMPTY, m, m.entries)
    ensures CountKind(FileKind, m.entries) == m.fileCount && CountKind(FolderKind, m.entries) == m.folderCount
    ensures TotalSize(m.entries) == m.totalBytes
    ensures 1 <= m.fileCount + m.folderCount == |m.entries| <= MAX_MANIFEST_ENTRIES
    ensures Disclosed(m)
  {
    CountsAddUp(m.entries);
    assert Disclosed(EMPTY);
  }

  lemma ListingIsAcceptable(fold: Fold, es: seq<Entry>)
    requires Listing(fold, [], {}, es)
    ensures forall i | 0 <= i < |es| :: EntryAcceptable(es[i])
  {
    hide EntryAcceptable;
    assert forall i | 0 <= i < |es| :: SenderEntry(es[i]);
  }

  lemma AgreementOnEntries(fold: Fold, m: Manifest, omitted: nat)
    requires m.entries != [] && Grew(EMPTY, m, m.entries) && Listing(fold, [], {}, m.entries)
    requires Roots(m.entries) != [] && |m.roots| == |Roots(m.entries)| + omitted
    ensures ReceiverAccepts(fold, HeaderOf(m), m.entries, m.omissions) <==> omitted == 0
  {
    hide Listing, Grew, EntryAcceptable, UniqueKeys, AncestorsPresent, PathsValid, OmissionAcceptable, CountKind, TotalSize, Roots;
    var es := m.entries;
    ListingIsReceivable(fold, es);
    CountsMatchHeader(m);
    CountsAddUp(es);
    ListingIsAcceptable(fold, es);
    var h := HeaderOf(m);
    assert ValidReceived(fold, h, StoredAll(es)) <==> omitted == 0;
    assert omitted == 0 ==> HeaderAcceptable(h);
  }

  /** A manifest the sender builds passes the header check, every frame check and the
      whole-manifest check exactly when no selected root was itself omitted. */
  lemma SenderReceiverAgreement(fold: Fold, selection: Selection)
    requires Build(fold, selection).Ok?
    ensures var m := Build(fold, selection).manifest;
            ReceiverAccepts(fold, HeaderOf(m), m.entries, m.omissions) <==> OmittedRoots(selection) == 0
  {
    hide Listing, Grew, ReceiverAccepts, Roots;
    var es := SelectionBuildsListing(fold, EMPTY, selection, {});
    var m := Build(fold, selection).manifest;
    assert m.entries == es by {
      GrewFromEmpty(m, es);
    }
    AgreementOnEntries(fold, m, OmittedRoots(selection));
  }

  lemma GrewFromEmpty(m: Manifest, es: seq<Entry>)
    requires Grew(EMPTY, m, es)
    ensures m.entries == es
  {
  }

  lemma ShortNamesAreValid()
    ensures ValidManifestPath(["a"]) && ValidManifestPath(["b"])
  {
    assert Utf8Length("a") == 1 && Utf8Length("b") == 1 && Utf16Length("a") == 1 && Utf16Length("b") == 1 by {
      assert "a"[1..] == "" && "b"[1..] == "";
    }
    assert |BaseName("a")| == 1 && |BaseName("b")| == 1 by {
      assert "a"[1..] == "" && "b"[1..] == "";
    }
  }

  /** A concrete selection the sender accepts and every receiver refuses: a file next
      to a symbolic link, both selected by name. */
  lemma OmittedRootIsRefused(fold: Fold, digest: LowerHexDigest)
    requires fold("a") != fold("b")
    ensures var selection := Root("a", FileNode(1, digest), Root("b", Omitted(LinkOrReparsePoint), Done));
            && Build(fold, selection).Ok?
            && var m := Build(fold, selection).manifest;
               !ReceiverAccepts(fold, HeaderOf(m), m.entries, m.omissions)
  {
    hide ValidManifestPath, ReceiverAccepts;
    ShortNamesAreValid();
    var linkOnly := Root("b", Omitted(LinkOrReparsePoint), Done);
    var selection := Root("a", FileNode(1, digest), linkOnly);
    var one := EMPTY.(roots := [] + ["a"], entries := [] + [Entry(["a"], FileKind, 1, digest)], fileCount := 1, totalBytes := 1);
    assert WalkSelection(fold, EMPTY, selection, {}) == WalkSelection(fold, one, linkOnly, {} + {fold("a")});
    assert WalkSelection(fold, one, linkOnly, {} + {fold("a")}).Ok?;
    SenderReceiverAgreement(fold, selection);
  }
}
