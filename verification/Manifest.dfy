/** The sender's manifest builder, the receiver's manifest check, and the exact
    condition under which the two agree. */
module Manifest {
  import opened Names

  const MAX_MANIFEST_ENTRIES := 100_000
  const MAX_MANIFEST_OMISSIONS := 100_000
  const MAX_OMISSION_REASON := 1_024
  const MAX_INT64 := 0x7fff_ffff_ffff_ffff

  /** The source's 64-bit integers: every assignment to a variable of this type is
      an obligation that the value fits. */
  type Int64 = x: int | -0x8000_0000_0000_0000 <= x <= 0x7fff_ffff_ffff_ffff

  type FileSize = x: Int64 | 0 <= x

  datatype Kind = FileKind | FolderKind

  datatype Entry = Entry(path: Path, kind: Kind, size: Int64, digest: string)

  datatype Omission = Omission(path: Path, reason: string)

  datatype Manifest = Manifest(
    roots: seq<string>,
    entries: seq<Entry>,
    omissions: seq<Omission>,
    fileCount: nat,
    folderCount: nat,
    totalBytes: FileSize)

  const EMPTY := Manifest([], [], [], 0, 0, 0)

  // ---- what the walk finds on disk ----

  datatype OmitReason =
    | Vanished
    | AttributesUnreadable
    | LinkOrReparsePoint
    | FileUnreadable
    | ChangedWhilePreparing
    | FolderUnreadable
    | Unsupported

  function Text(reason: OmitReason): (text: string)
    ensures 0 < |text| <= MAX_OMISSION_REASON
  {
    match reason
    case Vanished => "unreadable or vanished"
    case AttributesUnreadable => "attributes could not be read"
    case LinkOrReparsePoint => "symbolic link, junction, or reparse point is unsupported"
    case FileUnreadable => "unreadable"
    case ChangedWhilePreparing => "changed or could not be read while preparing the offer"
    case FolderUnreadable => "folder is unreadable"
    case Unsupported => "unsupported filesystem entry"
  }

  predicate IsLowerHex(c: char) { '0' <= c <= '9' || 'a' <= c <= 'f' }

  predicate IsHex(c: char) { IsLowerHex(c) || 'A' <= c <= 'F' }

  predicate IsHexDigest(s: string) { |s| == 64 && forall i | 0 <= i < 64 :: IsHex(s[i]) }

  predicate IsLowerHexDigest(s: string) { |s| == 64 && forall i | 0 <= i < 64 :: IsLowerHex(s[i]) }

  type LowerHexDigest = s: string | IsLowerHexDigest(s)
    witness seq(64, _ => '0')

  /** A source tree. `Omitted` is anything the walk skips and discloses; a folder
      without a listing is one whose listing could not be read. Children stand in
      the order in which the walk visits them: the walk sorts them by key, and
      every result here holds for each order. */
  datatype Node =
    | Omitted(reason: OmitReason)
    | FileNode(size: FileSize, digest: LowerHexDigest)
    | FolderNode(listing: Option<Forest>)

  datatype Forest = Nil | Cons(name: string, node: Node, rest: Forest)

  /** The selected paths of one `send`; `Missing` is a path that cannot be inspected. */
  datatype Selection = Done | Missing(others: Selection) | Root(name: string, tree: Node, others: Selection)

  datatype Failure =
    | TooManyEntries
    | TooManyOmissions
    | UnsafePath
    | Overflow
    | Alias
    | DuplicateRoot
    | NotInspectable
    | NothingReadable

  datatype Result = Ok(manifest: Manifest) | Err(failure: Failure)

  // ---- the sender: specification ----

  function AddOmission(m: Manifest, path: Path, reason: OmitReason): Result {
    if |m.omissions| >= MAX_MANIFEST_OMISSIONS then Err(TooManyOmissions)
    else Ok(m.(omissions := m.omissions + [Omission(path, Text(reason))]))
  }

  function AddFile(m: Manifest, path: Path, size: FileSize, digest: LowerHexDigest): Result {
    if size > MAX_INT64 - m.totalBytes then Err(Overflow)
    else Ok(m.(entries := m.entries + [Entry(path, FileKind, size, digest)],
               fileCount := m.fileCount + 1,
               totalBytes := m.totalBytes + size))
  }

  function AddFolder(m: Manifest, path: Path): Manifest {
    m.(entries := m.entries + [Entry(path, FolderKind, 0, "")], folderCount := m.folderCount + 1)
  }

  function Walk(fold: Fold, m: Manifest, path: Path, node: Node): Result
    decreases node
  {
    if |m.entries| >= MAX_MANIFEST_ENTRIES then Err(TooManyEntries)
    else if !ValidManifestPath(path) then Err(UnsafePath)
    else
      match node
      case Omitted(reason) => AddOmission(m, path, reason)
      case FileNode(size, digest) => AddFile(m, path, size, digest)
      case FolderNode(None) => AddOmission(AddFolder(m, path), path, FolderUnreadable)
      case FolderNode(Some(children)) => WalkChildren(fold, AddFolder(m, path), path, children, {})
  }

  function WalkChildren(fold: Fold, m: Manifest, path: Path, children: Forest, seen: set<string>): Result
    decreases children
  {
    match children
    case Nil => Ok(m)
    case Cons(name, node, rest) =>
      if fold(name) in seen then Err(Alias)
      else
        match Walk(fold, m, path + [name], node)
        case Err(failure) => Err(failure)
        case Ok(m') => WalkChildren(fold, m', path, rest, seen + {fold(name)})
  }

  function WalkSelection(fold: Fold, m: Manifest, selection: Selection, seen: set<string>): Result
    decreases selection
  {
    match selection
    case Done => Ok(m)
    case Missing(_) => Err(NotInspectable)
    case Root(name, tree, others) =>
      if !ValidManifestPath([name]) then Err(UnsafePath)
      else if fold(name) in seen then Err(DuplicateRoot)
      else
        match Walk(fold, m.(roots := m.roots + [name]), [name], tree)
        case Err(failure) => Err(failure)
        case Ok(m') => WalkSelection(fold, m', others, seen + {fold(name)})
  }

  function Build(fold: Fold, selection: Selection): Result {
    match WalkSelection(fold, EMPTY, selection, {})
    case Err(failure) => Err(failure)
    case Ok(m) => if m.entries == [] then Err(NothingReadable) else Ok(m)
  }

  // ---- the sender: the walk that mutates one shared manifest ----

  function NodeSize(node: Node): nat
    decreases node
  {
    match node
    case FolderNode(Some(children)) => 1 + ForestSize(children)
    case _ => 1
  }

  function ForestSize(forest: Forest): nat
    decreases forest
  {
    match forest
    case Nil => 0
    case Cons(_, node, rest) => 1 + NodeSize(node) + ForestSize(rest)
  }

  class ManifestBuilder {
    var roots: seq<string>
    var entries: seq<Entry>
    var omissions: seq<Omission>
    var fileCount: nat
    var folderCount: nat
    var totalBytes: FileSize

    function Value(): Manifest
      reads this
    {
      Manifest(roots, entries, omissions, fileCount, folderCount, totalBytes)
    }

    constructor ()
      ensures Value() == EMPTY
    {
      roots, entries, omissions, fileCount, folderCount, totalBytes := [], [], [], 0, 0, 0;
    }

    method AddManifestOmission(path: Path, reason: OmitReason) returns (failure: Option<Failure>)
      modifies this
      ensures match AddOmission(old(Value()), path, reason)
              case Ok(m) => failure == None && Value() == m
              case Err(f) => failure == Some(f)
    {
      if |omissions| >= MAX_MANIFEST_OMISSIONS {
        return Some(TooManyOmissions);
      }
      omissions := omissions + [Omission(path, Text(reason))];
      return None;
    }

    method WalkManifestRoot(fold: Fold, path: Path, node: Node) returns (failure: Option<Failure>)
      modifies this
      ensures match Walk(fold, old(Value()), path, node)
              case Ok(m) => failure == None && Value() == m
              case Err(f) => failure == Some(f)
      decreases NodeSize(node)
    {
      if |entries| >= MAX_MANIFEST_ENTRIES {
        return Some(TooManyEntries);
      }
      if !ValidManifestPath(path) {
        return Some(UnsafePath);
      }
      match node {
        case Omitted(reason) =>
          failure := AddManifestOmission(path, reason);
        case FileNode(size, digest) =>
          if size > MAX_INT64 - totalBytes {
            return Some(Overflow);
          }
          entries := entries + [Entry(path, FileKind, size, digest)];
          fileCount := fileCount + 1;
          totalBytes := totalBytes + size;
          failure := None;
        case FolderNode(listing) =>
          entries := entries + [Entry(path, FolderKind, 0, "")];
          folderCount := folderCount + 1;
          match listing {
            case None =>
              failure := AddManifestOmission(path, FolderUnreadable);
            case Some(children) =>
              failure := VisitChildren(fold, path, children);
          }
      }
    }

    /** The loop over a folder's listing, with the alias check of `childNames`. */
    method VisitChildren(fold: Fold, path: Path, children: Forest) returns (failure: Option<Failure>)
      modifies this
      ensures match WalkChildren(fold, old(Value()), path, children, {})
              case Ok(m) => failure == None && Value() == m
              case Err(f) => failure == Some(f)
      decreases ForestSize(children)
    {
      var pending := children;
      var childNames: set<string> := {};
      while pending.Cons?
        invariant WalkChildren(fold, Value(), path, pending, childNames)
               == WalkChildren(fold, old(Value()), path, children, {})
        invariant ForestSize(pending) <= ForestSize(children)
        decreases ForestSize(pending)
      {
        if fold(pending.name) in childNames {
          return Some(Alias);
        }
        childNames := childNames + {fold(pending.name)};
        failure := WalkManifestRoot(fold, path + [pending.name], pending.node);
        if failure.Some? {
          return;
        }
        pending := pending.rest;
      }
      failure := None;
    }

    method BuildManifest(fold: Fold, selection: Selection) returns (failure: Option<Failure>)
      requires Value() == EMPTY
      modifies this
      ensures match Build(fold, selection)
              case Ok(m) => failure == None && Value() == m
              case Err(f) => failure == Some(f)
    {
      var pending := selection;
      var rootNames: set<string> := {};
      while pending != Done
        invariant WalkSelection(fold, Value(), pending, rootNames) == WalkSelection(fold, EMPTY, selection, {})
        decreases pending
      {
        if pending.Missing? {
          return Some(NotInspectable);
        }
        if !ValidManifestPath([pending.name]) {
          return Some(UnsafePath);
        }
        if fold(pending.name) in rootNames {
          return Some(DuplicateRoot);
        }
        rootNames := rootNames + {fold(pending.name)};
        roots := roots + [pending.name];
        failure := WalkManifestRoot(fold, [pending.name], pending.tree);
        if failure.Some? {
          return;
        }
        pending := pending.others;
      }
      if entries == [] {
        return Some(NothingReadable);
      }
      failure := None;
    }
  }
}
