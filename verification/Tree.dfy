/** The selected trees and the manifest built from them: one entry for each file and each
    folder, one omission for each node that is left out, and nothing else. */
module Tree {
  import opened Names
  import opened Manifest

  // ---- what is in a tree ----

  ghost predicate HasChild(children: Forest, name: string, node: Node)
    decreases children
  {
    children.Cons? && ((children.name == name && children.node == node) || HasChild(children.rest, name, node))
  }

  /** Beneath `tree`, at the path `q`, lies `node`. */
  ghost predicate NodeAt(tree: Node, q: Path, node: Node)
    decreases |q|
  {
    if q == [] then tree == node
    else tree.FolderNode? && tree.listing.Some? && ForestHas(tree.listing.value, q, node)
  }

  ghost predicate ForestHas(children: Forest, q: Path, node: Node)
    requires q != []
    decreases |q|, 0
  {
    exists child :: HasChild(children, q[0], child) && NodeAt(child, q[1..], node)
  }

  /** The selected trees, under their names. */
  function Selected(selection: Selection): Forest {
    match selection
    case Done => Nil
    case Missing(others) => Selected(others)
    case Root(name, tree, others) => Cons(name, tree, Selected(others))
  }

  ghost predicate SelectionHas(selection: Selection, q: Path, node: Node) { q != [] && ForestHas(Selected(selection), q, node) }

  /** Files and folders are listed, also a folder that cannot be read. */
  predicate IsListed(node: Node) { !node.Omitted? }

  function EntryFor(path: Path, node: Node): Entry
    requires IsListed(node)
  {
    match node
    case FileNode(size, digest) => Entry(path, FileKind, size, digest)
    case FolderNode(_) => Entry(path, FolderKind, 0, "")
  }

  /** What is skipped is disclosed, and so is a folder that cannot be read. */
  predicate IsDisclosed(node: Node) { node.Omitted? || (node.FolderNode? && node.listing.None?) }

  function OmissionFor(path: Path, node: Node): Omission
    requires IsDisclosed(node)
  {
    Omission(path, if node.Omitted? then Text(node.reason) else "folder is unreadable")
  }

  /** A reason's text tells which reason it is. */
  lemma ReasonsAreTold(a: OmitReason, b: OmitReason)
    requires Text(a) == Text(b)
    ensures a == b
  {
    assert Text(Vanished)[0] == 'u' && Text(Vanished)[2] == 'r' && |Text(Vanished)| == 22;
    assert |Text(AttributesUnreadable)| == 28 && |Text(LinkOrReparsePoint)| == 56 && |Text(FileUnreadable)| == 10;
    assert |Text(ChangedWhilePreparing)| == 54 && |Text(FolderUnreadable)| == 20 && |Text(Unsupported)| == 28;
    assert Text(AttributesUnreadable)[0] == 'a' && Text(Unsupported)[0] == 'u';
  }

  // ---- a manifest's part for one tree, or for the trees of one folder ----

  /** With `tree` at `path`, `node` is at `full`. */
  ghost predicate LiesAt(path: Path, tree: Node, full: Path, node: Node) { path <= full && NodeAt(tree, full[|path|..], node) }

  ghost predicate LiesIn(path: Path, children: Forest, full: Path, node: Node) { path < full && ForestHas(children, full[|path|..], node) }

  ghost predicate EntryIsOf(e: Entry, path: Path, tree: Node) {
    exists node :: LiesAt(path, tree, e.path, node) && IsListed(node) && e == EntryFor(e.path, node)
  }

  ghost predicate OmissionIsOf(o: Omission, path: Path, tree: Node) {
    exists node :: LiesAt(path, tree, o.path, node) && IsDisclosed(node) && o == OmissionFor(o.path, node)
  }

  ghost predicate EntryIsIn(e: Entry, path: Path, children: Forest) {
    exists node :: LiesIn(path, children, e.path, node) && IsListed(node) && e == EntryFor(e.path, node)
  }

  ghost predicate OmissionIsIn(o: Omission, path: Path, children: Forest) {
    exists node :: LiesIn(path, children, o.path, node) && IsDisclosed(node) && o == OmissionFor(o.path, node)
  }

  ghost predicate Distinct(es: seq<Entry>, os: seq<Omission>) {
    && (forall i, j | 0 <= i < j < |es| :: es[i].path != es[j].path)
    && (forall i, j | 0 <= i < j < |os| :: os[i].path != os[j].path)
  }

  ghost predicate Describes(path: Path, tree: Node, es: seq<Entry>, os: seq<Omission>) {
    && (forall e :: e in es <==> EntryIsOf(e, path, tree))
    && (forall o :: o in os <==> OmissionIsOf(o, path, tree))
    && Distinct(es, os)
  }

  ghost predicate DescribesAll(path: Path, children: Forest, es: seq<Entry>, os: seq<Omission>) {
    && (forall e :: e in es <==> EntryIsIn(e, path, children))
    && (forall o :: o in os <==> OmissionIsIn(o, path, children))
    && Distinct(es, os)
  }

  ghost predicate Appends(m: Manifest, m': Manifest, es: seq<Entry>, os: seq<Omission>) {
    m'.entries == m.entries + es && m'.omissions == m.omissions + os
  }

  lemma OnlyLeaf(path: Path, tree: Node, full: Path, node: Node)
    requires !tree.FolderNode? || tree.listing.None?
    ensures LiesAt(path, tree, full, node) <==> full == path && node == tree
  {
  }

  lemma LeafIsDescribed(path: Path, tree: Node, es: seq<Entry>, os: seq<Omission>)
    requires !tree.FolderNode? || tree.listing.None?
    requires es == if IsListed(tree) then [EntryFor(path, tree)] else []
    requires os == if IsDisclosed(tree) then [OmissionFor(path, tree)] else []
    ensures Describes(path, tree, es, os)
  {
    hide LiesAt;
    forall full, node ensures LiesAt(path, tree, full, node) <==> full == path && node == tree {
      OnlyLeaf(path, tree, full, node);
    }
    assert LiesAt(path, tree, path, tree);
  }

  lemma FolderOrBelow(path: Path, children: Forest, full: Path, node: Node)
    ensures LiesAt(path, FolderNode(Some(children)), full, node)
       <==> (full == path && node == FolderNode(Some(children))) || LiesIn(path, children, full, node)
  {
    hide ForestHas;
  }

  lemma FolderIsDescribed(path: Path, children: Forest, es: seq<Entry>, os: seq<Omission>)
    requires DescribesAll(path, children, es, os)
    ensures Describes(path, FolderNode(Some(children)), [Entry(path, FolderKind, 0, "")] + es, os)
  {
    hide LiesAt, LiesIn;
    var tree := FolderNode(Some(children));
    forall full, node ensures LiesAt(path, tree, full, node) <==> (full == path && node == tree) || LiesIn(path, children, full, node) {
      FolderOrBelow(path, children, full, node);
    }
    assert LiesAt(path, tree, path, tree);
    forall j | 0 <= j < |es| ensures es[j].path != path {
      assert EntryIsIn(es[j], path, children);
      BelowIsBelow(path, children, es[j].path);
    }
  }

  lemma BelowIsBelow(path: Path, children: Forest, full: Path)
    ensures forall node :: LiesIn(path, children, full, node) ==> path < full
  {
    hide ForestHas;
  }

  lemma FirstOrLater(path: Path, name: string, node: Node, rest: Forest, full: Path, n: Node)
    ensures LiesIn(path, Cons(name, node, rest), full, n) <==> LiesAt(path + [name], node, full, n) || LiesIn(path, rest, full, n)
  {
    hide NodeAt;
    assert HasChild(Cons(name, node, rest), name, node);
    if path < full {
      var q := full[|path|..];
      assert path + [name] <= full <==> q[0] == name;
      assert q[1..] == full[|path| + 1..];
      if child :| HasChild(rest, q[0], child) && NodeAt(child, q[1..], n) {
        assert HasChild(Cons(name, node, rest), q[0], child);
      }
    }
  }

  /** The paths of one tree and of the other trees of its folder go apart. */
  lemma PathsGoApart(path: Path, name: string, node: Node, rest: Forest, full: Path, n: Node, n': Node)
    requires forall other :: !HasChild(rest, name, other)
    ensures !(LiesAt(path + [name], node, full, n) && LiesIn(path, rest, full, n'))
  {
    hide NodeAt, HasChild;
  }

  lemma FirstAndLater(path: Path, name: string, node: Node, rest: Forest, es: seq<Entry>, os: seq<Omission>, es': seq<Entry>, os': seq<Omission>)
    requires Describes(path + [name], node, es, os) && DescribesAll(path, rest, es', os')
    requires forall n :: !HasChild(rest, name, n)
    ensures DescribesAll(path, Cons(name, node, rest), es + es', os + os')
  {
    hide LiesAt, LiesIn, HasChild;
    forall full, n ensures LiesIn(path, Cons(name, node, rest), full, n) <==> LiesAt(path + [name], node, full, n) || LiesIn(path, rest, full, n) {
      FirstOrLater(path, name, node, rest, full, n);
    }
    forall full, n, n' ensures !(LiesAt(path + [name], node, full, n) && LiesIn(path, rest, full, n')) {
      PathsGoApart(path, name, node, rest, full, n, n');
    }
    forall i, j | 0 <= i < |es| && 0 <= j < |es'| ensures es[i].path != es'[j].path {
      assert EntryIsOf(es[i], path + [name], node) && EntryIsIn(es'[j], path, rest);
    }
    forall i, j | 0 <= i < |os| && 0 <= j < |os'| ensures os[i].path != os'[j].path {
      assert OmissionIsOf(os[i], path + [name], node) && OmissionIsIn(os'[j], path, rest);
    }
  }

  // ---- the walk ----

  lemma {:induction false} WalkedNamesAreNew(fold: Fold, m: Manifest, path: Path, children: Forest, seen: set<string>, name: string, node: Node)
    requires WalkChildren(fold, m, path, children, seen).Ok? && HasChild(children, name, node)
    ensures fold(name) !in seen
    decreases children
  {
    hide Walk;
    if !(children.name == name && children.node == node) {
      var m' := Walk(fold, m, path + [children.name], children.node).manifest;
      WalkedNamesAreNew(fold, m', path, children.rest, seen + {fold(children.name)}, name, node);
    }
  }

  lemma {:induction false} WalkMakes(fold: Fold, m: Manifest, path: Path, tree: Node) returns (es: seq<Entry>, os: seq<Omission>)
    requires Walk(fold, m, path, tree).Ok?
    ensures Appends(m, Walk(fold, m, path, tree).manifest, es, os) && Describes(path, tree, es, os)
    decreases tree
  {
    hide ValidManifestPath, Describes, DescribesAll;
    if tree.FolderNode? && tree.listing.Some? {
      var es', os' := WalkAllMakes(fold, AddFolder(m, path), path, tree.listing.value, {});
      es, os := [Entry(path, FolderKind, 0, "")] + es', os';
      FolderIsDescribed(path, tree.listing.value, es', os');
    } else {
      es := if IsListed(tree) then [EntryFor(path, tree)] else [];
      os := if IsDisclosed(tree) then [OmissionFor(path, tree)] else [];
      LeafIsDescribed(path, tree, es, os);
    }
  }

  lemma {:induction false} WalkAllMakes(fold: Fold, m: Manifest, path: Path, children: Forest, seen: set<string>)
    returns (es: seq<Entry>, os: seq<Omission>)
    requires WalkChildren(fold, m, path, children, seen).Ok?
    ensures Appends(m, WalkChildren(fold, m, path, children, seen).manifest, es, os) && DescribesAll(path, children, es, os)
    decreases children
  {
    hide Describes, Walk;
    match children
    case Nil => es, os := [], [];
    case Cons(name, node, rest) =>
      var m' := Walk(fold, m, path + [name], node).manifest;
      var es1, os1 := WalkMakes(fold, m, path + [name], node);
      var es2, os2 := WalkAllMakes(fold, m', path, rest, seen + {fold(name)});
      forall n ensures !HasChild(rest, name, n) {
        if HasChild(rest, name, n) {
          WalkedNamesAreNew(fold, m', path, rest, seen + {fold(name)}, name, n);
        }
      }
      FirstAndLater(path, name, node, rest, es1, os1, es2, os2);
      es, os := es1 + es2, os1 + os2;
  }

  lemma {:induction false} SelectedNamesAreNew(fold: Fold, m: Manifest, selection: Selection, seen: set<string>, name: string, node: Node)
    requires WalkSelection(fold, m, selection, seen).Ok? && HasChild(Selected(selection), name, node)
    ensures fold(name) !in seen
    decreases selection
  {
    hide Walk, ValidManifestPath;
    if !(selection.name == name && selection.tree == node) {
      var m' := Walk(fold, m.(roots := m.roots + [selection.name]), [selection.name], selection.tree).manifest;
      SelectedNamesAreNew(fold, m', selection.others, seen + {fold(selection.name)}, name, node);
    }
  }

  lemma {:induction false} SelectionMakes(fold: Fold, m: Manifest, selection: Selection, seen: set<string>) returns (es: seq<Entry>, os: seq<Omission>)
    requires WalkSelection(fold, m, selection, seen).Ok?
    ensures Appends(m, WalkSelection(fold, m, selection, seen).manifest, es, os) && DescribesAll([], Selected(selection), es, os)
    decreases selection
  {
    hide Describes, Walk, ValidManifestPath;
    if selection == Done {
      es, os := [], [];
    } else {
      var name, tree, others := selection.name, selection.tree, selection.others;
      var m1 := m.(roots := m.roots + [name]);
      var m2 := Walk(fold, m1, [name], tree).manifest;
      var es1, os1 := WalkMakes(fold, m1, [name], tree);
      var es2, os2 := SelectionMakes(fold, m2, others, seen + {fold(name)});
      forall n ensures !HasChild(Selected(others), name, n) {
        if HasChild(Selected(others), name, n) {
          SelectedNamesAreNew(fold, m2, others, seen + {fold(name)}, name, n);
        }
      }
      assert [] + [name] == [name];
      FirstAndLater([], name, tree, Selected(others), es1, os1, es2, os2);
      es, os := es1 + es2, os1 + os2;
    }
  }

  /** A manifest that is built lists every file and every folder of the selected trees, at
      its path with its size and digest, discloses everything that is left out, with its
      reason, and holds nothing else and nothing twice. */
  lemma ManifestIsTheTrees(fold: Fold, selection: Selection)
    requires Build(fold, selection).Ok?
    ensures var m := Build(fold, selection).manifest;
            && (forall e :: e in m.entries <==> exists node :: SelectionHas(selection, e.path, node) && IsListed(node) && e == EntryFor(e.path, node))
            && (forall o :: o in m.omissions <==> exists node :: SelectionHas(selection, o.path, node) && IsDisclosed(node) && o == OmissionFor(o.path, node))
            && (forall i, j | 0 <= i < j < |m.entries| :: m.entries[i].path != m.entries[j].path)
            && (forall i, j | 0 <= i < j < |m.omissions| :: m.omissions[i].path != m.omissions[j].path)
  {
    hide WalkSelection, ForestHas;
    var m := Build(fold, selection).manifest;
    var es, os := SelectionMakes(fold, EMPTY, selection, {});
    assert m.entries == es && m.omissions == os;
    forall q, node ensures LiesIn([], Selected(selection), q, node) <==> SelectionHas(selection, q, node) {
      assert q[0..] == q;
    }
  }

  // ---- what can be built ----

  function NamesOf(children: Forest): seq<string> { if children.Nil? then [] else [children.name] + NamesOf(children.rest) }

  /** No two names in a folder, or in a selection, have the same key. */
  ghost predicate NoAliases(fold: Fold, names: seq<string>) {
    forall i, j | 0 <= i < j < |names| :: fold(names[i]) != fold(names[j])
  }

  /** Safe paths, and no aliases in any folder. */
  ghost predicate Proper(fold: Fold, path: Path, tree: Node)
    decreases tree
  {
    ValidManifestPath(path) && (tree.FolderNode? && tree.listing.Some? ==> ProperAll(fold, path, tree.listing.value))
  }

  ghost predicate ProperAll(fold: Fold, path: Path, children: Forest)
    decreases children
  {
    NoAliases(fold, NamesOf(children)) && EachProper(fold, path, children)
  }

  ghost predicate EachProper(fold: Fold, path: Path, children: Forest)
    decreases children, 0
  {
    children.Cons? ==> Proper(fold, path + [children.name], children.node) && EachProper(fold, path, children.rest)
  }

  /** How much a tree adds to a manifest. */
  datatype Size = Size(entries: nat, omissions: nat, bytes: nat)

  function Sum(a: Size, b: Size): Size { Size(a.entries + b.entries, a.omissions + b.omissions, a.bytes + b.bytes) }

  function SizeOf(tree: Node): Size
    decreases tree
  {
    match tree
    case Omitted(_) => Size(0, 1, 0)
    case FileNode(size, _) => Size(1, 0, size)
    case FolderNode(None) => Size(1, 1, 0)
    case FolderNode(Some(children)) => Sum(Size(1, 0, 0), SizeOfAll(children))
  }

  function SizeOfAll(children: Forest): Size
    decreases children
  {
    match children
    case Nil => Size(0, 0, 0)
    case Cons(_, node, rest) => Sum(SizeOf(node), SizeOfAll(rest))
  }

  /** The last node the walk comes to is listed. A manifest that is full takes no further
      node, not even one that is left out. */
  predicate EndsListed(tree: Node)
    decreases tree
  {
    match tree
    case Omitted(_) => false
    case FolderNode(Some(children)) => AllEndListed(children)
    case _ => true
  }

  predicate AllEndListed(children: Forest)
    decreases children
  {
    match children
    case Nil => true
    case Cons(_, node, rest) => if rest.Nil? then EndsListed(node) else AllEndListed(rest)
  }

  function Used(m: Manifest): Size { Size(|m.entries|, |m.omissions|, m.totalBytes) }

  /** There is room for so much more. */
  predicate HasRoom(used: Size, more: Size, endsListed: bool) {
    var all := Sum(used, more);
    && all.entries <= MAX_MANIFEST_ENTRIES && (all.entries == MAX_MANIFEST_ENTRIES ==> endsListed)
    && all.omissions <= MAX_MANIFEST_OMISSIONS && all.bytes <= MAX_INT64
  }

  predicate Bounded(m: Manifest) { |m.entries| <= MAX_MANIFEST_ENTRIES && |m.omissions| <= MAX_MANIFEST_OMISSIONS }

  ghost predicate NamesAreNew(fold: Fold, names: seq<string>, seen: set<string>) {
    forall i | 0 <= i < |names| :: fold(names[i]) !in seen
  }

  lemma NewNamesOfFirst(fold: Fold, name: string, rest: seq<string>, seen: set<string>)
    ensures NoAliases(fold, [name] + rest) && NamesAreNew(fold, [name] + rest, seen)
       <==> fold(name) !in seen && NoAliases(fold, rest) && NamesAreNew(fold, rest, seen + {fold(name)})
  {
    var all := [name] + rest;
    assert all[0] == name && forall i | 0 <= i < |rest| :: all[i + 1] == rest[i];
    assert forall i | 0 < i < |all| :: all[i] == rest[i - 1];
  }

  /** A rest that adds no entry ends with a node left out, unless there is no rest. */
  lemma {:induction false} LastDecides(node: Node, rest: Forest)
    ensures rest.Cons? && SizeOfAll(rest).entries == 0 ==> !AllEndListed(rest)
    ensures !EndsListed(node) && rest.Nil? ==> !AllEndListed(Cons("", node, rest))
    decreases rest
  {
    if rest.Cons? {
      NothingListedEndsOmitted(rest.node);
      LastDecides(rest.node, rest.rest);
    }
  }

  lemma NothingListedEndsOmitted(node: Node)
    ensures SizeOf(node).entries == 0 ==> !EndsListed(node)
  {
  }

  /** Room for the first and then for the rest is room for all. */
  lemma RoomForFirst(used: Size, children: Forest)
    requires children.Cons?
    ensures HasRoom(used, SizeOfAll(children), AllEndListed(children)) <==>
              && HasRoom(used, SizeOf(children.node), EndsListed(children.node))
              && HasRoom(Sum(used, SizeOf(children.node)), SizeOfAll(children.rest), AllEndListed(children.rest))
    ensures Sum(Sum(used, SizeOf(children.node)), SizeOfAll(children.rest)) == Sum(used, SizeOfAll(children))
  {
    hide SizeOf, EndsListed;
    LastDecides(children.node, children.rest);
  }

  lemma RoomIsBounded(m: Manifest, used: Size, more: Size, endsListed: bool)
    requires HasRoom(used, more, endsListed) && Used(m) == Sum(used, more)
    ensures Bounded(m)
  {
  }

  lemma {:induction false} WalkSucceedsIff(fold: Fold, m: Manifest, path: Path, tree: Node)
    requires Bounded(m)
    ensures var r := Walk(fold, m, path, tree);
            && (r.Ok? <==> Proper(fold, path, tree) && HasRoom(Used(m), SizeOf(tree), EndsListed(tree)))
            && (r.Ok? ==> Used(r.manifest) == Sum(Used(m), SizeOf(tree)))
    decreases tree
  {
    hide ValidManifestPath, NoAliases;
    if tree.FolderNode? && tree.listing.Some? && |m.entries| < MAX_MANIFEST_ENTRIES {
      WalkAllSucceedsIff(fold, AddFolder(m, path), path, tree.listing.value, {});
    }
  }

  lemma {:induction false} WalkAllSucceedsIff(fold: Fold, m: Manifest, path: Path, children: Forest, seen: set<string>)
    requires Bounded(m)
    ensures var r := WalkChildren(fold, m, path, children, seen);
            && (r.Ok? <==> ProperAll(fold, path, children) && NamesAreNew(fold, NamesOf(children), seen)
                           && HasRoom(Used(m), SizeOfAll(children), AllEndListed(children)))
            && (r.Ok? ==> Used(r.manifest) == Sum(Used(m), SizeOfAll(children)))
    decreases children
  {
    hide ValidManifestPath, NoAliases, NamesAreNew, Walk, Proper, HasRoom, Sum, SizeOf, EndsListed, Used;
    if children.Nil? {
      NoNames(fold, seen);
      NothingMore(m);
    } else {
      var name, node, rest := children.name, children.node, children.rest;
      NewNamesOfFirst(fold, name, NamesOf(rest), seen);
      WalkSucceedsIff(fold, m, path + [name], node);
      var first := Walk(fold, m, path + [name], node);
      RoomForFirst(Used(m), children);
      if first.Ok? {
        RoomIsBounded(first.manifest, Used(m), SizeOf(node), EndsListed(node));
        WalkAllSucceedsIff(fold, first.manifest, path, rest, seen + {fold(name)});
      }
    }
  }

  lemma NothingMore(m: Manifest)
    requires Bounded(m)
    ensures HasRoom(Used(m), SizeOfAll(Nil), AllEndListed(Nil)) && Sum(Used(m), SizeOfAll(Nil)) == Used(m)
  {
  }

  lemma RootsAreNotCounted(m: Manifest, roots: seq<string>)
    ensures Used(m.(roots := roots)) == Used(m) && Bounded(m.(roots := roots)) == Bounded(m)
  {
  }

  lemma NoNames(fold: Fold, seen: set<string>)
    ensures NoAliases(fold, []) && NamesAreNew(fold, [], seen)
  {
  }

  predicate AllInspectable(selection: Selection) {
    match selection
    case Done => true
    case Missing(_) => false
    case Root(_, _, others) => AllInspectable(others)
  }

  lemma {:induction false} SelectionSucceedsIff(fold: Fold, m: Manifest, selection: Selection, seen: set<string>)
    requires Bounded(m)
    ensures var r, trees := WalkSelection(fold, m, selection, seen), Selected(selection);
            && (r.Ok? <==> AllInspectable(selection) && ProperAll(fold, [], trees) && NamesAreNew(fold, NamesOf(trees), seen)
                           && HasRoom(Used(m), SizeOfAll(trees), AllEndListed(trees)))
            && (r.Ok? ==> Used(r.manifest) == Sum(Used(m), SizeOfAll(trees)))
    decreases selection
  {
    hide ValidManifestPath, NoAliases, NamesAreNew, Walk, Proper, HasRoom, Sum, SizeOf, EndsListed, Used;
    match selection
    case Done =>
      NoNames(fold, seen);
      NothingMore(m);
    case Missing(_) =>
    case Root(name, tree, others) =>
      var rooted := m.(roots := m.roots + [name]);
      var first := Walk(fold, rooted, [name], tree);
      assert [] + [name] == [name];
      NewNamesOfFirst(fold, name, NamesOf(Selected(others)), seen);
      WalkSucceedsIff(fold, rooted, [name], tree);
      ProperIsValid(fold, [name], tree);
      RoomForFirst(Used(m), Selected(selection));
      RootsAreNotCounted(m, rooted.roots);
      if first.Ok? {
        RoomIsBounded(first.manifest, Used(m), SizeOf(tree), EndsListed(tree));
        SelectionSucceedsIff(fold, first.manifest, others, seen + {fold(name)});
      }
  }

  lemma ProperIsValid(fold: Fold, path: Path, tree: Node)
    ensures Proper(fold, path, tree) ==> ValidManifestPath(path)
  {
  }

  /** Exactly these selections can be built: every root can be inspected, every path is
      safe, no two names in one place are aliases, all limits are kept, and something can
      be read. */
  lemma BuildSucceedsIff(fold: Fold, selection: Selection)
    ensures var trees := Selected(selection);
            Build(fold, selection).Ok? <==>
              && AllInspectable(selection) && ProperAll(fold, [], trees)
              && HasRoom(Size(0, 0, 0), SizeOfAll(trees), AllEndListed(trees)) && SizeOfAll(trees).entries > 0
  {
    hide WalkSelection, ProperAll, SizeOfAll, AllEndListed, HasRoom;
    SelectionSucceedsIff(fold, EMPTY, selection, {});
  }

  lemma {:induction false} ProperBelow(fold: Fold, path: Path, tree: Node, q: Path, node: Node)
    requires Proper(fold, path, tree) && NodeAt(tree, q, node)
    ensures Proper(fold, path + q, node)
    decreases |q|
  {
    if q == [] {
      assert path + q == path;
    } else {
      ProperInForest(fold, path, tree.listing.value, q, node);
    }
  }

  lemma {:induction false} ProperInForest(fold: Fold, path: Path, children: Forest, q: Path, node: Node)
    requires EachProper(fold, path, children) && q != [] && ForestHas(children, q, node)
    ensures Proper(fold, path + q, node)
    decreases |q|, 0
  {
    hide Proper;
    var child :| HasChild(children, q[0], child) && NodeAt(child, q[1..], node);
    EachChildIsProper(fold, path, children, q[0], child);
    ProperBelow(fold, path + [q[0]], child, q[1..], node);
    assert path + [q[0]] + q[1..] == path + q;
  }

  lemma {:induction false} EachChildIsProper(fold: Fold, path: Path, children: Forest, name: string, child: Node)
    requires EachProper(fold, path, children) && HasChild(children, name, child)
    ensures Proper(fold, path + [name], child)
    decreases children
  {
    hide Proper;
    if !(children.name == name && children.node == child) {
      EachChildIsProper(fold, path, children.rest, name, child);
    }
  }

  /** A folder anywhere in the selection with two children of equal key is refused. */
  lemma AliasesAreRefused(fold: Fold, selection: Selection, q: Path, children: Forest, i: nat, j: nat)
    requires SelectionHas(selection, q, FolderNode(Some(children)))
    requires i < j < |NamesOf(children)| && fold(NamesOf(children)[i]) == fold(NamesOf(children)[j])
    ensures Build(fold, selection).Err?
  {
    hide Build, ForestHas;
    BuildSucceedsIff(fold, selection);
    if Build(fold, selection).Ok? {
      ProperInForest(fold, [], Selected(selection), q, FolderNode(Some(children)));
    }
  }
}
